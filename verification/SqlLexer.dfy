/**
 * The lexical grammar shared by the three hand-written SQL scanners: a text is cut into pieces,
 * each piece depending on the text from its start and on what the two preceding characters were.
 */
module SqlLexer {
  import opened Text

  // ---------------------------------------------------------------- characters

  predicate IsAscii(c: char) { c < '\U{0080}' }

  predicate IsAsciiAlpha(c: char) { 'a' <= c <= 'z' || 'A' <= c <= 'Z' }

  predicate IsAsciiAlnum(c: char) { IsAsciiAlpha(c) || '0' <= c <= '9' }

  /** Characters DuckDB turns into blanks before lexing. */
  predicate IsUnicodeSpace(c: char) {
    || c == '\U{00A0}' || '\U{2000}' <= c <= '\U{200B}' || c == '\U{202F}'
    || c == '\U{205F}' || c == '\U{2060}' || c == '\U{3000}' || c == '\U{FEFF}'
  }

  predicate IsIdentifierChar(c: char) {
    !IsUnicodeSpace(c) && (!IsAscii(c) || IsAsciiAlnum(c) || c == '_' || c == '$')
  }

  predicate IsNewline(c: char) { c == '\r' || c == '\n' }

  predicate IsSpace(c: char) {
    c == ' ' || c == '\t' || c == '\U{000C}' || IsNewline(c) || IsUnicodeSpace(c)
  }

  /** `s.startswith(ab)`. */
  predicate Opens(s: string, a: char, b: char) { |s| >= 2 && s[0] == a && s[1] == b }

  // ---------------------------------------------------------------- context

  /** What the scanners look back at: an identifier character, or a lone `e`/`E`. */
  datatype Context = Context(identBefore: bool, escapeBefore: bool)

  const START := Context(false, false)

  predicate IsEscapeLetter(c: char) { c == 'e' || c == 'E' }

  function ContextAfter(c: Context, text: string): Context {
    if text == "" then c
    else
      var last := text[|text| - 1];
      var ident := if |text| >= 2 then IsIdentifierChar(text[|text| - 2]) else c.identBefore;
      Context(IsIdentifierChar(last), IsEscapeLetter(last) && !ident)
  }

  lemma ContextAfterAppend(c: Context, a: string, b: string)
    ensures ContextAfter(ContextAfter(c, a), b) == ContextAfter(c, a + b)
  {
    if b == "" {
      assert a + b == a;
    }
  }

  // ---------------------------------------------------------------- where a piece ends

  /** Length of the run of characters up to a line break. */
  function LineEnd(s: string): (n: nat)
    ensures n <= |s|
  {
    if s == "" || IsNewline(s[0]) then 0 else 1 + LineEnd(s[1..])
  }

  /** Length of the text up to the end of `depth` open block comments, and whether they all close. */
  function BlockEnd(s: string, depth: nat): (r: (nat, bool))
    ensures r.0 <= |s|
    ensures !r.1 ==> r.0 == |s|
    decreases |s|
  {
    if depth == 0 then (0, true)
    else if s == "" then (0, false)
    else if Opens(s, '/', '*') then var r := BlockEnd(s[2..], depth + 1); (r.0 + 2, r.1)
    else if Opens(s, '*', '/') then var r := BlockEnd(s[2..], depth - 1); (r.0 + 2, r.1)
    else var r := BlockEnd(s[1..], depth); (r.0 + 1, r.1)
  }

  /** Length of a quoted token after its opening quote, and whether it is closed. */
  function QuotedEnd(s: string, quote: char, escapes: bool): (r: (nat, bool))
    ensures r.0 <= |s|
    ensures r.1 ==> r.0 > 0 && s[r.0 - 1] == quote
    ensures !r.1 ==> r.0 == |s|
  {
    if s == "" then (0, false)
    else if escapes && s[0] == '\\' then
      if |s| == 1 then (1, false) else var r := QuotedEnd(s[2..], quote, escapes); (r.0 + 2, r.1)
    else if s[0] != quote then var r := QuotedEnd(s[1..], quote, escapes); (r.0 + 1, r.1)
    else if |s| > 1 && s[1] == quote then var r := QuotedEnd(s[2..], quote, escapes); (r.0 + 2, r.1)
    else (1, true)
  }

  /** Length of the blanks and line comments after a string, when they contain a line break. */
  function Continuation(s: string, newline: bool): (r: Option<nat>)
    ensures r.Some? ==> r.value <= |s|
  {
    if s != "" && IsSpace(s[0]) then
      match Continuation(s[1..], newline || IsNewline(s[0]))
      case Some(k) => Some(k + 1)
      case None => None
    else if Opens(s, '-', '-') then
      var n := LineEnd(s[2..]) + 2;
      match Continuation(s[n..], newline)
      case Some(k) => Some(k + n)
      case None => None
    else if newline then Some(0)
    else None
  }

  /** Length of an E-string after its opening quote: closed segments chain across line breaks. */
  function EscapeStringEnd(s: string): (n: nat)
    ensures n <= |s|
  {
    var r := QuotedEnd(s, '\'', true);
    if !r.1 then r.0
    else
      var k := Continuation(s[r.0..], false);
      if k.Some? && r.0 + k.value < |s| && s[r.0 + k.value] == '\'' then
        var next := r.0 + k.value + 1;
        next + EscapeStringEnd(s[next..])
      else r.0
  }

  predicate IsTagStart(c: char) { !IsAscii(c) || IsAsciiAlpha(c) || c == '_' }

  predicate IsTagChar(c: char) { !IsAscii(c) || IsAsciiAlnum(c) || c == '_' }

  predicate IsTag(tag: string) {
    tag == "" || (IsTagStart(tag[0]) && forall k :: 1 <= k < |tag| ==> IsTagChar(tag[k]))
  }

  /** Length of the dollar-string delimiter at the head of `s`, which starts with `$`. */
  function DollarDelimiter(c: Context, s: string): (n: Option<nat>)
    requires s != "" && s[0] == '$'
    ensures n.Some? ==> 2 <= n.value <= |s|
  {
    if c.identBefore then None
    else match Find(s[1..], "$")
      case None => None
      case Some(k) => if IsTag(s[1..k + 1]) then Some(k + 2) else None
  }

  /** Length of a dollar string whose delimiter has length `n`. */
  function DollarEnd(s: string, n: nat): (end: nat)
    requires n <= |s|
    ensures n <= end <= |s|
  {
    match Find(s[n..], s[..n])
    case None => |s|
    case Some(k) => n + k + n
  }

  function WordEnd(s: string): (n: nat)
    ensures n <= |s|
    ensures forall k :: 0 <= k < n ==> IsIdentifierChar(s[k])
    ensures n < |s| ==> !IsIdentifierChar(s[n])
  {
    if s == "" || !IsIdentifierChar(s[0]) then 0 else 1 + WordEnd(s[1..])
  }

  // ---------------------------------------------------------------- pieces

  datatype Kind =
    | Space
    | Comment
    | Literal
    | Quoted(quote: char, closed: bool)
    | Word
    | Symbol

  datatype Piece = Piece(kind: Kind, text: string)

  /** The first piece of a non-empty text. */
  function First(c: Context, s: string): (p: Piece)
    requires s != ""
    ensures p.text != "" && p.text <= s
  {
    if IsSpace(s[0]) then Piece(Space, s[..1])
    else if Opens(s, '-', '-') then Piece(Comment, s[..LineEnd(s[2..]) + 2])
    else if Opens(s, '/', '*') then Piece(Comment, s[..BlockEnd(s[2..], 1).0 + 2])
    else if s[0] == '$' && DollarDelimiter(c, s).Some? then
      Piece(Literal, s[..DollarEnd(s, DollarDelimiter(c, s).value)])
    else if s[0] == '\'' then
      var n := if c.escapeBefore then EscapeStringEnd(s[1..]) else QuotedEnd(s[1..], '\'', false).0;
      Piece(Literal, s[..n + 1])
    else if s[0] == '"' || s[0] == '`' then
      var r := QuotedEnd(s[1..], s[0], false);
      Piece(Quoted(s[0], r.1), s[..r.0 + 1])
    else if IsIdentifierChar(s[0]) then Piece(Word, s[..WordEnd(s)])
    else Piece(Symbol, s[..1])
  }

  /** All pieces of a text, in order. */
  function Lex(c: Context, s: string): seq<Piece>
    decreases |s|
  {
    if s == "" then []
    else
      var p := First(c, s);
      [p] + Lex(ContextAfter(c, p.text), s[|p.text|..])
  }

  function Texts(pieces: seq<Piece>): string {
    if pieces == [] then "" else pieces[0].text + Texts(pieces[1..])
  }

  /** Nothing is lost: the pieces of a text spell the text. */
  lemma {:induction false} LexSpells(c: Context, s: string)
    ensures Texts(Lex(c, s)) == s
    decreases |s|
  {
    if s != "" {
      var p := First(c, s);
      LexSpells(ContextAfter(c, p.text), s[|p.text|..]);
      assert s == p.text + s[|p.text|..];
    }
  }

  /** A text whose first piece is `x` is cut after it. */
  lemma LexCut(c: Context, x: string, rest: string)
    requires x != "" && First(c, x + rest).text == x
    ensures Lex(c, x + rest) == [First(c, x + rest)] + Lex(ContextAfter(c, x), rest)
  {
    hide First;
    assert (x + rest)[|x|..] == rest;
  }
}
