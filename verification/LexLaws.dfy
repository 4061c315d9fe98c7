/**
 * What the lexical grammar reads, with the characters written out: every kind of token, blank and comment as
 * it is printed, and the pieces a text printed from them is cut into.
 */
module LexLaws {
  import opened Text
  import opened SqlLexer
  import opened Backticks
  import SqlTokens

  // ---------------------------------------------------------------- characters, by code point

  predicate BlankCode(n: int) {
    n in {9, 10, 12, 13, 32, 0xA0, 0x202F, 0x205F, 0x2060, 0x3000, 0xFEFF} || 0x2000 <= n <= 0x200B
  }

  predicate LetterCode(n: int) { 65 <= n <= 90 || 97 <= n <= 122 }

  predicate DigitCode(n: int) { 48 <= n <= 57 }

  predicate NameCode(n: int) {
    LetterCode(n) || DigitCode(n) || n == 95 || n == 36 || (n >= 128 && !BlankCode(n))
  }

  lemma Blanks(c: char)
    ensures IsSpace(c) <==> BlankCode(c as int)
  {
  }

  lemma NameChars(c: char)
    ensures IsIdentifierChar(c) <==> NameCode(c as int)
  {
  }

  // ---------------------------------------------------------------- what is printed

  /** What a block comment holds. */
  datatype Inside = Plain(text: string) | Nested(inner: seq<Inside>)

  /** A character of an E-string: itself, behind a backslash, or a quote written twice. */
  datatype Unit = Lone(c: char) | Slashed(c: char) | Twice

  /** What separates the segments of an E-string. */
  datatype Gap = Blank(c: char) | Dashes(text: string)

  datatype Segment = Segment(gap: seq<Gap>, units: seq<Unit>)

  datatype Item =
    | BlankItem(c: char)
    | LineComment(text: string)
    | BlockComment(inside: seq<Inside>)
    | DollarString(tag: string, body: string)
    | PlainString(body: string)
    | EscapeString(letter: char, units: seq<Unit>, more: seq<Segment>)
    | Name(name: string, quote: char)
    | WordItem(text: string)
    | Mark(c: char)

  function ShowInside(inside: seq<Inside>): string {
    if inside == [] then ""
    else
      (match inside[0] case Plain(text) => text case Nested(inner) => "/*" + (ShowInside(inner) + "*/"))
      + ShowInside(inside[1..])
  }

  function ShowUnits(units: seq<Unit>): string {
    if units == [] then ""
    else
      (match units[0] case Lone(c) => [c] case Slashed(c) => ['\\', c] case Twice => ['\'', '\''])
      + ShowUnits(units[1..])
  }

  function ShowGap(gap: seq<Gap>): string {
    if gap == [] then ""
    else (match gap[0] case Blank(c) => [c] case Dashes(text) => "--" + text) + ShowGap(gap[1..])
  }

  function ShowSegments(more: seq<Segment>): string {
    if more == [] then ""
    else ShowGap(more[0].gap) + ("'" + (ShowUnits(more[0].units) + "'" + ShowSegments(more[1..])))
  }

  function Delimiter(tag: string): string { "$" + tag + "$" }

  function Show(i: Item): string {
    match i
    case BlankItem(c) => [c]
    case LineComment(text) => "--" + text
    case BlockComment(inside) => "/*" + (ShowInside(inside) + "*/")
    case DollarString(tag, body) => Delimiter(tag) + body + Delimiter(tag)
    case PlainString(body) => "'" + (Double(body, '\'') + "'")
    case EscapeString(letter, units, more) => [letter] + ("'" + (ShowUnits(units) + "'" + ShowSegments(more)))
    case Name(name, quote) => [quote] + Double(name, quote) + [quote]
    case WordItem(text) => text
    case Mark(c) => [c]
  }

  /** The pieces an item is cut into: one, but for an E-string, whose letter is a word of its own. */
  function Pieces(i: Item): seq<Piece> {
    match i
    case BlankItem(_) => [Piece(Space, Show(i))]
    case LineComment(_) => [Piece(Comment, Show(i))]
    case BlockComment(_) => [Piece(Comment, Show(i))]
    case DollarString(_, _) => [Piece(Literal, Show(i))]
    case PlainString(_) => [Piece(Literal, Show(i))]
    case EscapeString(letter, _, _) => [Piece(Word, [letter]), Piece(Literal, Show(i)[1..])]
    case Name(_, quote) => [Piece(Quoted(quote, true), Show(i))]
    case WordItem(_) => [Piece(Word, Show(i))]
    case Mark(_) => [Piece(Symbol, Show(i))]
  }

  // ---------------------------------------------------------------- where an item may stand

  predicate Breaks(c: char) { c == '\r' || c == '\n' }

  predicate OneLine(text: string) { forall c | c in text :: !Breaks(c) }

  /** The text so far ends in a name character. */
  predicate BehindName(before: string) { before != "" && NameCode(before[|before| - 1] as int) }

  /** The text so far ends in a lone `e` or `E`. */
  predicate BehindLetter(before: string) {
    && before != "" && before[|before| - 1] in {'e', 'E'}
    && (|before| >= 2 ==> !NameCode(before[|before| - 2] as int))
  }

  predicate Pair(a: char, b: char) { (a == '/' && b == '*') || (a == '*' && b == '/') }

  /** No comment is opened or closed in the text or where it meets `next`. */
  predicate Clear(text: string, next: char) {
    text == "" || (!Pair(text[0], if |text| > 1 then text[1] else next) && Clear(text[1..], next))
  }

  predicate InsideOk(inside: seq<Inside>, rest: string)
    requires rest != ""
  {
    inside == [] ||
    (InsideOk(inside[1..], rest) &&
     match inside[0]
     case Plain(text) => Clear(text, (ShowInside(inside[1..]) + rest)[0])
     case Nested(inner) => InsideOk(inner, "*/"))
  }

  predicate UnitOk(u: Unit) { u.Lone? ==> u.c != '\'' && u.c != '\\' }

  predicate UnitsOk(units: seq<Unit>) { forall u | u in units :: UnitOk(u) }

  /** Blanks and line comments, each comment ended by a line break. */
  predicate GapOk(gap: seq<Gap>) {
    gap == [] ||
    (GapOk(gap[1..]) &&
     match gap[0]
     case Blank(c) => BlankCode(c as int)
     case Dashes(text) => OneLine(text) && |gap| > 1 && gap[1].Blank? && Breaks(gap[1].c))
  }

  predicate HasBreak(gap: seq<Gap>) { exists g :: g in gap && g.Blank? && Breaks(g.c) }

  predicate SegmentOk(m: Segment) { GapOk(m.gap) && HasBreak(m.gap) && UnitsOk(m.units) }

  /** The text goes on with another segment: blanks and line comments with a line break, then a quote. */
  ghost predicate Continued(rest: string) {
    exists gap :: GapOk(gap) && HasBreak(gap) && ShowGap(gap) + "'" <= rest
  }

  predicate TagCode(n: int) { LetterCode(n) || n == 95 || n >= 128 }

  predicate TagOk(tag: string) {
    tag == "" || (TagCode(tag[0] as int) && forall c | c in tag :: TagCode(c as int) || DigitCode(c as int))
  }

  predicate Here(text: string, pattern: string, k: nat) {
    k + |pattern| <= |text| && text[k..k + |pattern|] == pattern
  }

  /** The delimiter ends the string at the end of its body and not before. */
  predicate EndsFirst(body: string, delimiter: string) {
    forall k | 0 <= k < |body| :: !Here(body + delimiter, delimiter, k)
  }

  predicate AllName(text: string) { forall c | c in text :: NameCode(c as int) }

  /** The item reads as itself between the text before and the text behind it. */
  ghost predicate ItemOk(before: string, i: Item, rest: string) {
    match i
    case BlankItem(c) => BlankCode(c as int)
    case LineComment(text) => OneLine(text) && (rest == "" || Breaks(rest[0]))
    case BlockComment(inside) => InsideOk(inside, "*/")
    case DollarString(tag, body) => TagOk(tag) && EndsFirst(body, Delimiter(tag)) && !BehindName(before)
    case PlainString(_) => !BehindLetter(before) && (rest == "" || rest[0] != '\'')
    case EscapeString(letter, units, more) =>
      && letter in {'e', 'E'} && !BehindName(before) && UnitsOk(units) && (forall m | m in more :: SegmentOk(m))
      && (rest == "" || rest[0] != '\'') && !Continued(rest)
    case Name(_, quote) => quote in {'"', '`'} && (rest == "" || rest[0] != quote)
    case WordItem(text) =>
      && text != "" && text[0] != '$' && AllName(text)
      && (rest == "" || !NameCode(rest[0] as int))
    case Mark(c) =>
      && !BlankCode(c as int) && !NameCode(c as int) && c != '\'' && c != '"' && c != '`'
      && (rest != "" ==> !(c == '-' && rest[0] == '-') && !(c == '/' && rest[0] == '*'))
  }

  // ---------------------------------------------------------------- context

  /** What the scanners look back at is the two characters before. */
  lemma ContextMeaning(before: string)
    ensures ContextAfter(START, before) == Context(BehindName(before), BehindLetter(before))
  {
    if before != "" {
      NameChars(before[|before| - 1]);
    }
    if |before| >= 2 {
      NameChars(before[|before| - 2]);
    }
  }

  // ---------------------------------------------------------------- each kind

  lemma {:induction false} LineEndIs(text: string, rest: string)
    requires OneLine(text) && (rest == "" || Breaks(rest[0]))
    ensures LineEnd(text + rest) == |text|
  {
    if text == "" {
      assert text + rest == rest;
    } else {
      assert text[0] in text && forall c | c in text[1..] :: c in text;
      LineEndIs(text[1..], rest);
      assert (text + rest)[1..] == text[1..] + rest;
    }
  }

  lemma LineCommentReads(c: Context, text: string, rest: string)
    requires OneLine(text) && (rest == "" || Breaks(rest[0]))
    ensures First(c, "--" + text + rest) == Piece(Comment, "--" + text)
  {
    LineEndIs(text, rest);
    var s := "--" + text + rest;
    assert s[2..] == text + rest;
    assert s[..|text| + 2] == "--" + text;
  }

  lemma {:induction false} PlainEnd(text: string, tail: string, depth: nat)
    requires tail != "" && Clear(text, tail[0]) && depth > 0
    ensures BlockEnd(text + tail, depth) == (|text| + BlockEnd(tail, depth).0, BlockEnd(tail, depth).1)
  {
    if text == "" {
      assert text + tail == tail;
    } else {
      PlainEnd(text[1..], tail, depth);
      assert (text + tail)[1..] == text[1..] + tail;
      assert (text + tail)[1] == if |text| > 1 then text[1] else tail[0];
    }
  }

  lemma {:induction false} InsideEnd(inside: seq<Inside>, tail: string, depth: nat)
    requires tail != "" && InsideOk(inside, tail) && depth > 0
    ensures BlockEnd(ShowInside(inside) + tail, depth) ==
      (|ShowInside(inside)| + BlockEnd(tail, depth).0, BlockEnd(tail, depth).1)
  {
    hide BlockEnd;
    if inside == [] {
      assert ShowInside(inside) + tail == tail;
    } else {
      var more := ShowInside(inside[1..]);
      var rest := more + tail;
      InsideEnd(inside[1..], tail, depth);
      match inside[0]
      case Plain(text) =>
        hide Clear;
        PlainEnd(text, rest, depth);
        assert ShowInside(inside) == text + more;
        hide ShowInside;
        assert (text + more) + tail == text + rest;
      case Nested(inner) =>
        var body := ShowInside(inner);
        InsideOkTail(inner, "*/", "*/" + rest);
        InsideEnd(inner, "*/" + rest, depth + 1);
        assert ShowInside(inside) == "/*" + (body + "*/") + more;
        hide ShowInside, InsideOk;
        NestedEnd(body, more, tail, depth);
    }
  }

  lemma NestedEnd(body: string, more: string, tail: string, depth: nat)
    requires depth > 0
    requires
      var rest := "*/" + (more + tail);
      BlockEnd(body + rest, depth + 1) == (|body| + BlockEnd(rest, depth + 1).0, BlockEnd(rest, depth + 1).1)
    ensures BlockEnd("/*" + (body + "*/") + more + tail, depth) ==
      (|body| + 4 + BlockEnd(more + tail, depth).0, BlockEnd(more + tail, depth).1)
  {
    hide BlockEnd;
    var rest := more + tail;
    assert "/*" + (body + "*/") + more + tail == "/*" + (body + ("*/" + rest));
    Opened(body + ("*/" + rest), depth);
    Closed(rest, depth + 1);
  }

  /** Only the first character of what follows matters to what a comment holds. */
  lemma {:induction false} InsideOkTail(inside: seq<Inside>, a: string, b: string)
    requires a != "" && b != "" && a[0] == b[0]
    ensures InsideOk(inside, a) <==> InsideOk(inside, b)
  {
    if inside != [] {
      InsideOkTail(inside[1..], a, b);
      var r := ShowInside(inside[1..]);
      assert (r + a)[0] == (r + b)[0];
    }
  }

  lemma Opened(s: string, depth: nat)
    requires depth > 0
    ensures BlockEnd("/*" + s, depth) == (BlockEnd(s, depth + 1).0 + 2, BlockEnd(s, depth + 1).1)
  {
    assert ("/*" + s)[2..] == s;
  }

  lemma Closed(s: string, depth: nat)
    requires depth > 0
    ensures BlockEnd("*/" + s, depth) == (BlockEnd(s, depth - 1).0 + 2, BlockEnd(s, depth - 1).1)
  {
    assert ("*/" + s)[2..] == s;
  }

  lemma BlockCommentReads(c: Context, inside: seq<Inside>, rest: string)
    requires InsideOk(inside, "*/")
    ensures First(c, "/*" + (ShowInside(inside) + "*/") + rest) == Piece(Comment, "/*" + (ShowInside(inside) + "*/"))
  {
    hide InsideOk, BlockEnd;
    var body := ShowInside(inside);
    var text := "/*" + (body + "*/");
    var s := text + rest;
    InsideOkTail(inside, "*/", "*/" + rest);
    InsideEnd(inside, "*/" + rest, 1);
    Closed(rest, 1);
    assert BlockEnd(rest, 0) == (0, true) by { AllClosed(rest); }
    assert s[2..] == body + ("*/" + rest);
    assert s[..|body| + 4] == text;
    hide ShowInside;
  }

  lemma AllClosed(s: string)
    ensures BlockEnd(s, 0) == (0, true)
  {
  }

  lemma {:induction false} FindAt(text: string, pattern: string, k: nat)
    requires Here(text, pattern, k) && pattern != "" && forall j | 0 <= j < k :: !Here(text, pattern, j)
    ensures Find(text, pattern) == Some(k)
  {
    if k == 0 {
      assert text[..|pattern|] == pattern;
    } else {
      PrefixIsHere(text, pattern);
      forall j | 0 <= j < k ensures Here(text[1..], pattern, j) <==> Here(text, pattern, j + 1) {
        if j + 1 + |pattern| <= |text| {
          assert text[1..][j..j + |pattern|] == text[j + 1..j + 1 + |pattern|];
        }
      }
      FindAt(text[1..], pattern, k - 1);
    }
  }

  lemma PrefixIsHere(text: string, pattern: string)
    ensures pattern <= text <==> Here(text, pattern, 0)
  {
    if pattern <= text {
      assert text[..|pattern|] == pattern;
    }
  }

  lemma TagChars(tag: string)
    requires TagOk(tag)
    ensures IsTag(tag) && '$' !in tag
  {
    if tag != "" {
      assert forall k | 0 <= k < |tag| :: tag[k] in tag;
    }
  }

  lemma DollarDelimiterIs(c: Context, tag: string, more: string)
    requires TagOk(tag) && !c.identBefore
    ensures DollarDelimiter(c, Delimiter(tag) + more) == Some(|tag| + 2)
  {
    var s := Delimiter(tag) + more;
    TagChars(tag);
    assert s[1..] == tag + "$" + more;
    forall j | 0 <= j < |tag| ensures !Here(s[1..], "$", j) {
      assert s[1..][j] == tag[j];
      assert s[1..][j..j + 1][0] == tag[j];
    }
    assert s[1..][|tag|..|tag| + 1] == "$";
    FindAt(s[1..], "$", |tag|);
    assert s[1..|tag| + 1] == tag;
    hide IsTag, Find;
  }

  lemma DollarEndIs(tag: string, body: string, rest: string)
    requires EndsFirst(body, Delimiter(tag))
    ensures
      var d := Delimiter(tag);
      DollarEnd(d + body + d + rest, |d|) == |d + body + d|
  {
    var d := Delimiter(tag);
    var s := d + body + d + rest;
    assert s[..|d|] == d && s[|d|..] == body + d + rest;
    var t := body + d + rest;
    assert t[|body|..|body| + |d|] == d;
    forall j | 0 <= j < |body| ensures !Here(t, d, j) {
      assert t[j..j + |d|] == (body + d)[j..j + |d|];
      assert !Here(body + d, d, j);
    }
    FindAt(t, d, |body|);
    hide Find, EndsFirst, Delimiter;
  }

  lemma DollarStringReads(c: Context, tag: string, body: string, rest: string)
    requires TagOk(tag) && EndsFirst(body, Delimiter(tag)) && !c.identBefore
    ensures
      var text := Delimiter(tag) + body + Delimiter(tag);
      First(c, text + rest) == Piece(Literal, text)
  {
    var d := Delimiter(tag);
    var text := d + body + d;
    var s := text + rest;
    assert s[0] == '$';
    DollarDelimiterIs(c, tag, body + d + rest);
    assert d + (body + d + rest) == s;
    DollarEndIs(tag, body, rest);
    assert s[..|text|] == text;
    hide DollarDelimiter, DollarEnd, Delimiter, TagOk, EndsFirst;
  }

  lemma PlainStringReads(c: Context, body: string, rest: string)
    requires !c.escapeBefore && (rest == "" || rest[0] != '\'')
    ensures
      var text := "'" + (Double(body, '\'') + "'");
      First(c, text + rest) == Piece(Literal, text)
  {
    hide QuotedEnd, Double;
    var d := Double(body, '\'');
    var text := "'" + (d + "'");
    QuotedEndOfDoubled(body, '\'', rest);
    assert text[1..] == d + ['\''];
    assert (text + rest)[1..] == text[1..] + rest;
    assert (text + rest)[..|text|] == text;
  }

  lemma {:induction false} WordEndIs(text: string, rest: string)
    requires AllName(text) && (rest == "" || !NameCode(rest[0] as int))
    ensures WordEnd(text + rest) == |text|
  {
    if text == "" {
      assert text + rest == rest;
      if rest != "" {
        NameChars(rest[0]);
      }
    } else {
      assert text[0] in text && forall c | c in text[1..] :: c in text;
      NameChars(text[0]);
      WordEndIs(text[1..], rest);
      assert (text + rest)[1..] == text[1..] + rest;
    }
  }

  lemma WordReads(c: Context, text: string, rest: string)
    requires text != "" && text[0] != '$' && AllName(text)
    requires rest == "" || !NameCode(rest[0] as int)
    ensures First(c, text + rest) == Piece(Word, text)
  {
    WordEndIs(text, rest);
    assert text[0] in text;
    NameChars(text[0]);
    Blanks(text[0]);
    assert (text + rest)[..|text|] == text;
    hide WordEnd, IsIdentifierChar, IsSpace;
  }

  lemma MarkReads(c: Context, m: char, rest: string)
    requires !BlankCode(m as int) && !NameCode(m as int) && m != '\'' && m != '"' && m != '`'
    requires rest != "" ==> !(m == '-' && rest[0] == '-') && !(m == '/' && rest[0] == '*')
    ensures First(c, [m] + rest) == Piece(Symbol, [m])
  {
    NameChars(m);
    Blanks(m);
    assert ([m] + rest)[..1] == [m];
  }

  lemma BlankReads(c: Context, b: char, rest: string)
    requires BlankCode(b as int)
    ensures First(c, [b] + rest) == Piece(Space, [b])
  {
    Blanks(b);
    assert ([b] + rest)[..1] == [b];
  }

  // ---------------------------------------------------------------- E-strings

  lemma ShowUnit(units: seq<Unit>) returns (h: string)
    requires units != [] && UnitsOk(units)
    ensures ShowUnits(units) == h + ShowUnits(units[1..]) && Inner(h, '\'', true)
  {
    assert UnitOk(units[0]);
    h := match units[0] case Lone(c) => [c] case Slashed(c) => ['\\', c] case Twice => ['\'', '\''];
  }

  lemma {:induction false} UnitsEnd(units: seq<Unit>, rest: string)
    requires UnitsOk(units) && (rest == "" || rest[0] != '\'')
    ensures QuotedEnd(ShowUnits(units) + "'" + rest, '\'', true) == (|ShowUnits(units)| + 1, true)
  {
    hide QuotedEnd, UnitOk;
    var text := ShowUnits(units) + "'" + rest;
    if units == [] {
      assert text == "'" + rest;
      QuotedStop(text, '\'', true);
    } else {
      var h := ShowUnit(units);
      var tail := ShowUnits(units[1..]);
      assert forall u | u in units[1..] :: u in units;
      UnitsEnd(units[1..], rest);
      assert text == h + (tail + "'" + rest);
      QuotedSkip(h, tail + "'" + rest, '\'', true);
      hide ShowUnits;
    }
  }

  /** A gap with a line break in it or before it, up to the quote behind it. */
  lemma {:induction false} GapReads(gap: seq<Gap>, rest: string, newline: bool)
    requires GapOk(gap) && (newline || HasBreak(gap))
    ensures Continuation(ShowGap(gap) + "'" + rest, newline) == Some(|ShowGap(gap)|)
  {
    hide Continuation;
    var s := ShowGap(gap) + "'" + rest;
    if gap == [] {
      assert s == "'" + rest;
      NoGap(s, newline);
    } else {
      var t := ShowGap(gap[1..]) + "'" + rest;
      assert forall g | g in gap :: g == gap[0] || g in gap[1..];
      match gap[0]
      case Blank(c) =>
        assert s == [c] + t;
        Blanks(c);
        GapReads(gap[1..], rest, newline || Breaks(c));
        BlankStep(c, t, newline);
      case Dashes(text) =>
        assert s == "--" + text + t;
        assert gap[1..][0] == gap[1] && t[0] == gap[1].c;
        assert newline || HasBreak(gap[1..]) by {
          assert gap[1] in gap[1..];
        }
        GapReads(gap[1..], rest, newline);
        DashesStep(text, t, newline);
    }
  }

  lemma NoGap(s: string, newline: bool)
    requires s != "" && s[0] == '\''
    ensures Continuation(s, newline) == if newline then Some(0) else None
  {
  }

  lemma BlankStep(c: char, t: string, newline: bool)
    requires BlankCode(c as int)
    ensures
      var k := Continuation(t, newline || Breaks(c));
      Continuation([c] + t, newline) == if k.Some? then Some(k.value + 1) else None
  {
    Blanks(c);
    ContinuationOfSpace([c], t, newline);
    hide Continuation;
  }

  lemma DashesStep(text: string, t: string, newline: bool)
    requires OneLine(text) && (t == "" || Breaks(t[0]))
    ensures
      var k := Continuation(t, newline);
      Continuation("--" + text + t, newline) == if k.Some? then Some(k.value + 2 + |text|) else None
  {
    hide Continuation, LineEnd, OneLine;
    var x := "--" + text;
    LineEndIs(text, t);
    assert x[2..] == text && |x| == |text| + 2;
    ContinuationOfComment(x, t, newline);
  }

  /** Where the text goes on behind a gap and a line break, that gap can be written down. */
  lemma {:induction false} GapFound(s: string, newline: bool, k: nat) returns (gap: seq<Gap>)
    requires Continuation(s, newline) == Some(k) && k < |s| && s[k] == '\''
    ensures GapOk(gap) && ShowGap(gap) == s[..k] && (newline || HasBreak(gap))
    decreases |s|
  {
    hide IsSpace, LineEnd, GapOk, HasBreak, ShowGap, OneLine;
    if IsSpace(s[0]) {
      var t := s[1..];
      assert s == [s[0]] + t;
      ContinuationOfSpace([s[0]], t, newline);
      var rest := GapFound(t, newline || IsNewline(s[0]), k - 1);
      Blanks(s[0]);
      BlankInFront(s[0], rest);
      gap := [Blank(s[0])] + rest;
      assert s[..k] == [s[0]] + t[..k - 1];
    } else if Opens(s, '-', '-') {
      var text, t := CommentAhead(s);
      DashesStep(text, t, newline);
      var n := |text| + 2;
      var rest := GapFound(t, newline, k - n);
      assert s[k] == t[k - n];
      DashesInFront(text, rest, t, k - n);
      gap := [Dashes(text)] + rest;
      assert s[..k] == "--" + text + t[..k - n];
    } else {
      NothingShown();
      gap := [];
      assert k == 0;
    }
  }

  lemma NothingShown()
    ensures GapOk([]) && ShowGap([]) == ""
  {
  }

  lemma BlankInFront(c: char, rest: seq<Gap>)
    requires GapOk(rest) && BlankCode(c as int)
    ensures GapOk([Blank(c)] + rest) && ShowGap([Blank(c)] + rest) == [c] + ShowGap(rest)
    ensures HasBreak([Blank(c)] + rest) <==> Breaks(c) || HasBreak(rest)
  {
    var gap := [Blank(c)] + rest;
    assert gap[1..] == rest && gap[0] in gap && forall g | g in rest :: g in gap;
  }

  lemma DashesInFront(text: string, rest: seq<Gap>, t: string, k: nat)
    requires GapOk(rest) && OneLine(text) && k < |t| && ShowGap(rest) == t[..k] && Breaks(t[0]) && t[k] == '\''
    ensures GapOk([Dashes(text)] + rest) && ShowGap([Dashes(text)] + rest) == "--" + text + ShowGap(rest)
    ensures HasBreak([Dashes(text)] + rest) <==> HasBreak(rest)
  {
    var gap := [Dashes(text)] + rest;
    assert gap[1..] == rest && forall g | g in rest :: g in gap;
    assert ShowGap(rest)[0] == t[0];
    assert rest != [];
    GapStart(rest);
  }

  /** A line comment and the text from its line break on. */
  lemma CommentAhead(s: string) returns (text: string, t: string)
    requires Opens(s, '-', '-')
    ensures s == "--" + text + t && OneLine(text) && (t == "" || Breaks(t[0]))
  {
    var n := LineEnd(s[2..]);
    LineEndStops(s[2..]);
    text, t := s[2..][..n], s[2..][n..];
    assert s == "--" + s[2..];
    hide LineEnd, OneLine;
  }

  lemma {:induction false} LineEndStops(s: string)
    ensures var n := LineEnd(s); OneLine(s[..n]) && (n < |s| ==> Breaks(s[n]))
  {
    if s != "" && !IsNewline(s[0]) {
      LineEndStops(s[1..]);
      var n := LineEnd(s[1..]);
      assert s[..n + 1] == [s[0]] + s[1..][..n];
    }
  }

  lemma GapStart(gap: seq<Gap>)
    requires GapOk(gap) && gap != [] && Breaks(ShowGap(gap)[0])
    ensures gap[0].Blank? && Breaks(gap[0].c)
  {
  }

  lemma ContinuedFound(rest: string)
    requires QuoteInside(rest, Continuation(rest, false))
    ensures Continued(rest)
  {
    var k := Continuation(rest, false).value;
    var gap := GapFound(rest, false, k);
    assert ShowGap(gap) + "'" == rest[..k + 1];
  }

  /** The string ends where no gap with a line break leads to another quote. */
  lemma NotContinued(rest: string)
    requires !Continued(rest)
    ensures !QuoteInside(rest, Continuation(rest, false))
  {
    hide Continued, Continuation, QuoteInside;
    if QuoteInside(rest, Continuation(rest, false)) {
      ContinuedFound(rest);
    }
  }

  lemma {:induction false} SegmentsEnd(units: seq<Unit>, more: seq<Segment>, rest: string)
    requires UnitsOk(units) && (forall m | m in more :: SegmentOk(m))
    requires (rest == "" || rest[0] != '\'') && !Continued(rest)
    ensures
      var text := ShowUnits(units) + "'" + ShowSegments(more);
      EscapeStringEnd(text + rest) == |text|
    decreases |more|
  {
    hide QuotedEnd, Continuation, EscapeStringEnd, GapOk, HasBreak, UnitsOk, ShowUnits, ShowGap, Continued;
    var y := ShowUnits(units) + "'";
    var z := ShowSegments(more) + rest;
    assert y + ShowSegments(more) + rest == y + z;
    if more == [] {
      assert z == rest;
      UnitsEnd(units, rest);
      EscapeStringSegment(y, z);
      NotContinued(rest);
    } else {
      var gap, next := more[0].gap, more[0].units;
      var body := ShowUnits(next) + "'" + ShowSegments(more[1..]);
      assert SegmentOk(more[0]);
      assert forall m | m in more[1..] :: m in more;
      assert z == ShowGap(gap) + "'" + (body + rest);
      GapFirst(gap);
      UnitsEnd(units, z);
      EscapeStringSegment(y, z);
      GapReads(gap, body + rest, false);
      assert z[|ShowGap(gap)|] == '\'' && z[|ShowGap(gap)| + 1..] == body + rest;
      SegmentsEnd(next, more[1..], rest);
    }
  }

  lemma GapFirst(gap: seq<Gap>)
    requires GapOk(gap) && HasBreak(gap)
    ensures ShowGap(gap) != "" && ShowGap(gap)[0] != '\''
  {
  }

  lemma EscapeStringReads(c: Context, letter: char, units: seq<Unit>, more: seq<Segment>, rest: string)
    requires letter in {'e', 'E'} && !c.identBefore && UnitsOk(units) && (forall m | m in more :: SegmentOk(m))
    requires (rest == "" || rest[0] != '\'') && !Continued(rest)
    ensures
      var literal := "'" + (ShowUnits(units) + "'" + ShowSegments(more));
      && First(c, [letter] + (literal + rest)) == Piece(Word, [letter])
      && First(ContextAfter(c, [letter]), literal + rest) == Piece(Literal, literal)
  {
    hide ShowUnits, ShowSegments, Continued, SegmentOk, UnitsOk, EscapeStringEnd;
    SegmentsEnd(units, more, rest);
    var body := ShowUnits(units) + "'" + ShowSegments(more);
    WordReads(c, [letter], "'" + body + rest);
    NameChars(letter);
    EscapedFrom(ContextAfter(c, [letter]), body, rest);
  }

  lemma EscapedFrom(c: Context, body: string, rest: string)
    requires c.escapeBefore && EscapeStringEnd(body + rest) == |body|
    ensures First(c, "'" + body + rest) == Piece(Literal, "'" + body)
  {
    hide EscapeStringEnd;
    var s := "'" + body + rest;
    assert s[1..] == body + rest && s[..|body| + 1] == "'" + body;
  }

  // ---------------------------------------------------------------- whole texts

  function ShowAll(items: seq<Item>): string { if items == [] then "" else Show(items[0]) + ShowAll(items[1..]) }

  function PiecesOf(items: seq<Item>): seq<Piece> {
    if items == [] then [] else Pieces(items[0]) + PiecesOf(items[1..])
  }

  ghost predicate ItemsOk(before: string, items: seq<Item>, rest: string)
    decreases |items|
  {
    items == [] ||
    (ItemOk(before, items[0], ShowAll(items[1..]) + rest) && ItemsOk(before + Show(items[0]), items[1..], rest))
  }

  /** One piece cut off the front. */
  lemma CutFirst(c: Context, p: Piece, rest: string)
    requires p.text != "" && First(c, p.text + rest) == p
    ensures Lex(c, p.text + rest) == [p] + Lex(ContextAfter(c, p.text), rest)
  {
    hide First, Lex, ContextAfter;
    LexCut(c, p.text, rest);
  }

  lemma ItemReads(before: string, i: Item, rest: string)
    requires ItemOk(before, i, rest)
    ensures Lex(ContextAfter(START, before), Show(i) + rest) ==
      Pieces(i) + Lex(ContextAfter(START, before + Show(i)), rest)
  {
    var c := ContextAfter(START, before);
    ContextMeaning(before);
    ContextAfterAppend(START, before, Show(i));
    hide Lex, First, ContextAfter, BehindName, BehindLetter, Continued, InsideOk, ShowInside, Double, BlankCode,
      NameCode;
    if i.EscapeString? {
      EscapeItemReads(before, i, rest);
    } else {
      match i {
        case BlankItem(b) => BlankReads(c, b, rest);
        case LineComment(text) => LineCommentReads(c, text, rest);
        case BlockComment(inside) => BlockCommentReads(c, inside, rest);
        case DollarString(tag, body) => DollarStringReads(c, tag, body, rest);
        case PlainString(body) => PlainStringReads(c, body, rest);
        case Name(name, quote) => QuotedNameLexes(c, name, quote, rest);
        case WordItem(text) => WordReads(c, text, rest);
        case Mark(m) => MarkReads(c, m, rest);
      }
      CutFirst(c, Pieces(i)[0], rest);
    }
  }

  lemma EscapeItemReads(before: string, i: Item, rest: string)
    requires i.EscapeString? && ItemOk(before, i, rest)
    ensures Lex(ContextAfter(START, before), Show(i) + rest) ==
      Pieces(i) + Lex(ContextAfter(START, before + Show(i)), rest)
  {
    var c := ContextAfter(START, before);
    ContextMeaning(before);
    ContextAfterAppend(START, before, Show(i));
    hide Lex, First, ContextAfter, BehindName, Continued, ShowUnits, ShowSegments;
    var literal := "'" + (ShowUnits(i.units) + "'" + ShowSegments(i.more));
    EscapeStringReads(c, i.letter, i.units, i.more, rest);
    CutFirst(c, Piece(Word, [i.letter]), literal + rest);
    CutFirst(ContextAfter(c, [i.letter]), Piece(Literal, literal), rest);
    ContextAfterAppend(c, [i.letter], literal);
    assert Show(i) == [i.letter] + literal && Show(i)[1..] == literal;
    assert Show(i) + rest == [i.letter] + (literal + rest);
    assert Pieces(i) == [Piece(Word, [i.letter])] + [Piece(Literal, literal)];
  }

  /** A text printed from items, each in a place where it can stand, is cut back into them. */
  lemma {:induction false} ItemsRead(before: string, items: seq<Item>, rest: string)
    requires ItemsOk(before, items, rest)
    ensures Lex(ContextAfter(START, before), ShowAll(items) + rest) ==
      PiecesOf(items) + Lex(ContextAfter(START, before + ShowAll(items)), rest)
    decreases |items|
  {
    hide Lex, ContextAfter, Show, Pieces, ItemOk;
    if items == [] {
      assert ShowAll(items) + rest == rest && before + ShowAll(items) == before;
    } else {
      var i, more := items[0], items[1..];
      var tail := ShowAll(more) + rest;
      assert ShowAll(items) + rest == Show(i) + tail;
      assert before + ShowAll(items) == before + Show(i) + ShowAll(more);
      ItemReads(before, i, tail);
      ItemsRead(before + Show(i), more, rest);
    }
  }

  /** The whole text: nothing is read but what was printed. */
  lemma PrintedReads(items: seq<Item>)
    requires ItemsOk("", items, "")
    ensures Lex(START, ShowAll(items)) == PiecesOf(items)
  {
    hide Lex, ItemsOk, ShowAll, PiecesOf;
    ItemsRead("", items, "");
    LexNothing(ContextAfter(START, "" + ShowAll(items)));
    assert ShowAll(items) + "" == ShowAll(items);
    assert ContextAfter(START, "") == START;
    hide ContextAfter;
  }

  lemma LexNothing(c: Context)
    ensures Lex(c, "") == []
  {
  }

  // ---------------------------------------------------------------- E-strings of any text

  /** A backslash before each backslash and each quote. */
  function Escape(text: string): string {
    if text == "" then ""
    else (if text[0] == '\\' || text[0] == '\'' then ['\\', text[0]] else [text[0]]) + Escape(text[1..])
  }

  lemma {:induction false} EscapedUnits(text: string) returns (units: seq<Unit>)
    ensures UnitsOk(units) && ShowUnits(units) == Escape(text)
  {
    if text == "" {
      units := [];
    } else {
      var rest := EscapedUnits(text[1..]);
      var u := if text[0] == '\\' || text[0] == '\'' then Slashed(text[0]) else Lone(text[0]);
      units := [u] + rest;
      assert units[1..] == rest;
    }
  }

  /** Every text can be written as an E-string, which is read as one literal that ends at its own quote. */
  lemma EscapedTextReads(before: string, letter: char, text: string, rest: string)
    requires letter in {'e', 'E'} && !BehindName(before) && (rest == "" || rest[0] != '\'') && !Continued(rest)
    ensures
      var literal := "'" + Escape(text) + "'";
      Lex(ContextAfter(START, before), [letter] + literal + rest) ==
        [Piece(Word, [letter]), Piece(Literal, literal)]
        + Lex(ContextAfter(START, before + ([letter] + literal)), rest)
  {
    hide Lex, ContextAfter, Escape, Continued, BehindName, UnitsOk;
    var units := EscapedUnits(text);
    var i := EscapeString(letter, units, []);
    var literal := "'" + Escape(text) + "'";
    ItemReads(before, i, rest);
    hide ShowUnits;
    assert ShowUnits(units) + "'" + ShowSegments([]) == Escape(text) + "'";
    assert Show(i) == [letter] + literal && Show(i)[1..] == literal;
  }

  // ---------------------------------------------------------------- what is not closed

  lemma {:induction false} UnclosedDouble(body: string, quote: char)
    ensures QuotedEnd(Double(body, quote), quote, false) == (|Double(body, quote)|, false)
  {
    hide QuotedEnd;
    if body == "" {
      NoQuote(quote, false);
    } else {
      var h := if body[0] == quote then [quote, quote] else [body[0]];
      UnclosedDouble(body[1..], quote);
      QuotedSkip(h, Double(body[1..], quote), quote, false);
    }
  }

  lemma NoQuote(quote: char, escapes: bool)
    ensures QuotedEnd("", quote, escapes) == (0, false)
    ensures QuotedEnd("\\", quote, true) == (1, false)
  {
  }

  lemma {:induction false} UnclosedUnits(units: seq<Unit>, slash: bool)
    requires UnitsOk(units)
    ensures
      var text := ShowUnits(units) + (if slash then "\\" else "");
      QuotedEnd(text, '\'', true) == (|text|, false)
  {
    hide QuotedEnd, UnitOk;
    var last := if slash then "\\" else "";
    NoQuote('\'', true);
    if units == [] {
      assert ShowUnits(units) + last == last;
    } else {
      var h := ShowUnit(units);
      var tail := ShowUnits(units[1..]);
      assert forall u | u in units[1..] :: u in units;
      UnclosedUnits(units[1..], slash);
      assert ShowUnits(units) + last == h + (tail + last);
      QuotedSkip(h, tail + last, '\'', true);
      hide ShowUnits;
    }
  }

  /** A name that is never closed takes the rest of the text. */
  lemma UnclosedName(c: Context, body: string, quote: char)
    requires quote in {'"', '`'}
    ensures First(c, [quote] + Double(body, quote)) == Piece(Quoted(quote, false), [quote] + Double(body, quote))
  {
    UnclosedDouble(body, quote);
    hide QuotedEnd, Double;
    var s := [quote] + Double(body, quote);
    assert s[1..] == Double(body, quote) && s[..|s|] == s;
  }

  /** So does a string; behind a lone `e`, also one that ends in a backslash. */
  lemma UnclosedString(c: Context, body: string, units: seq<Unit>, slash: bool)
    requires UnitsOk(units)
    ensures
      var text := if c.escapeBefore then ShowUnits(units) + (if slash then "\\" else "") else Double(body, '\'');
      First(c, "'" + text) == Piece(Literal, "'" + text)
  {
    UnclosedDouble(body, '\'');
    UnclosedUnits(units, slash);
    hide Double, ShowUnits, UnitsOk, First, QuotedEnd;
    OpenString(c, if c.escapeBefore then ShowUnits(units) + (if slash then "\\" else "") else Double(body, '\''));
  }

  lemma OpenString(c: Context, text: string)
    requires QuotedEnd(text, '\'', c.escapeBefore) == (|text|, false)
    ensures First(c, "'" + text) == Piece(Literal, "'" + text)
  {
    hide QuotedEnd, Continuation, EscapeStringEnd, First;
    EscapeStringUnclosed(text);
    BehindQuote(text);
    FirstOfQuote(c, "'" + text);
  }

  lemma FirstOfQuote(c: Context, s: string)
    requires s != "" && s[0] == '\''
    ensures
      var n := if c.escapeBefore then EscapeStringEnd(s[1..]) else QuotedEnd(s[1..], '\'', false).0;
      First(c, s) == Piece(Literal, s[..n + 1])
  {
    hide QuotedEnd, EscapeStringEnd;
  }

  lemma BehindQuote(text: string)
    ensures ("'" + text)[1..] == text && ("'" + text)[..|text| + 1] == "'" + text
  {
  }

  lemma FindIsHere(text: string, pattern: string)
    ensures Find(text, pattern).Some? ==> Here(text, pattern, Find(text, pattern).value)
  {
  }

  /** A dollar string whose delimiter does not come again takes the rest of the text. */
  lemma UnclosedDollar(c: Context, tag: string, body: string)
    requires TagOk(tag) && !c.identBefore && forall k | 0 <= k <= |body| :: !Here(body, Delimiter(tag), k)
    ensures First(c, Delimiter(tag) + body) == Piece(Literal, Delimiter(tag) + body)
  {
    var d := Delimiter(tag);
    var s := d + body;
    DollarDelimiterIs(c, tag, body);
    assert s[|d|..] == body && s[..|d|] == d && s[0] == '$';
    FindIsHere(body, d);
    assert s[..|s|] == s;
    hide Delimiter, DollarDelimiter, Find, TagOk;
  }

  /** So does a block comment that is not closed; here the text ends in a character that opens and closes none. */
  lemma UnclosedComment(c: Context, inside: seq<Inside>, last: char)
    requires InsideOk(inside, [last]) && last != '/' && last != '*'
    ensures First(c, "/*" + (ShowInside(inside) + [last])) == Piece(Comment, "/*" + (ShowInside(inside) + [last]))
  {
    var body := ShowInside(inside) + [last];
    InsideEnd(inside, [last], 1);
    LastOpen(last);
    hide InsideOk, ShowInside, BlockEnd;
    var s := "/*" + body;
    assert s[2..] == body && s[..|body| + 2] == s;
  }

  lemma LastOpen(last: char)
    ensures BlockEnd([last], 1) == (1, false)
  {
    assert [last][1..] == "";
  }

  // ---------------------------------------------------------------- the backtick translation of a printed text

  /** Backtick names become double-quoted ones; nothing else is touched. */
  function Requoted(i: Item): Item { if i.Name? && i.quote == '`' then Name(i.name, '"') else i }

  function AllRequoted(items: seq<Item>): seq<Item> {
    if items == [] then [] else [Requoted(items[0])] + AllRequoted(items[1..])
  }

  lemma RequotedPieces(i: Item)
    requires i.Name? ==> i.quote in {'"', '`'}
    ensures (forall p | p in Pieces(i) :: WellQuoted(p)) && Texts(TranslateAll(Pieces(i))) == Show(Requoted(i))
  {
    hide Double, Undouble, ShowInside, ShowUnits, ShowSegments;
    var ps := Pieces(i);
    if i.Name? {
      var d := Double(i.name, i.quote);
      assert ps[0].text[1..|ps[0].text| - 1] == d;
      UndoubleDouble(i.name, i.quote);
      assert "\"" + Double(i.name, '"') + "\"" == ['"'] + Double(i.name, '"') + ['"'];
      OneTranslated(ps[0]);
    } else if i.EscapeString? {
      OneTranslated(ps[0]);
      OneTranslated(ps[1]);
      assert ps == [ps[0]] + [ps[1]];
      TranslatedTexts([ps[0]], [ps[1]]);
      assert Show(i) == [i.letter] + Show(i)[1..];
    } else {
      OneTranslated(ps[0]);
    }
  }

  lemma OneTranslated(p: Piece)
    requires WellQuoted(p)
    ensures Texts(TranslateAll([p])) == Translate(p).text
  {
    assert TranslateAll([p]) == [Translate(p)];
    assert Translate(p).text + "" == Translate(p).text;
  }

  lemma {:induction false} TranslatedTexts(a: seq<Piece>, b: seq<Piece>)
    requires (forall p | p in a :: WellQuoted(p)) && forall p | p in b :: WellQuoted(p)
    ensures (forall p | p in a + b :: WellQuoted(p))
    ensures Texts(TranslateAll(a + b)) == Texts(TranslateAll(a)) + Texts(TranslateAll(b))
  {
    hide WellQuoted, Translate;
    if a == [] {
      assert a + b == b && Texts(TranslateAll(a)) == "";
    } else {
      assert (a + b)[0] == a[0] && (a + b)[1..] == a[1..] + b;
      TranslatedTexts(a[1..], b);
    }
  }

  lemma {:induction false} RequotedTexts(items: seq<Item>)
    requires forall i | i in items && i.Name? :: i.quote in {'"', '`'}
    ensures (forall p | p in PiecesOf(items) :: WellQuoted(p))
    ensures Texts(TranslateAll(PiecesOf(items))) == ShowAll(AllRequoted(items))
  {
    hide WellQuoted, Translate, Pieces, Show, Requoted;
    if items != [] {
      RequotedPieces(items[0]);
      RequotedTexts(items[1..]);
      TranslatedTexts(Pieces(items[0]), PiecesOf(items[1..]));
    }
  }

  lemma {:induction false} NamesQuoted(before: string, items: seq<Item>, rest: string)
    requires ItemsOk(before, items, rest)
    ensures forall i | i in items && i.Name? :: i.quote in {'"', '`'}
    decreases |items|
  {
    hide Show, ShowAll;
    if items != [] {
      NamesQuoted(before + Show(items[0]), items[1..], rest);
      assert items == [items[0]] + items[1..];
    }
  }

  /** The translation of a printed text is the same text with every backtick name printed between double quotes. */
  lemma PrintedTranslates(items: seq<Item>)
    requires ItemsOk("", items, "")
    ensures Debacktick(START, ShowAll(items)) == ShowAll(AllRequoted(items))
  {
    hide Lex, ItemsOk, ShowAll, PiecesOf, Debacktick, AllRequoted, WellQuoted, Texts, TranslateAll;
    PrintedReads(items);
    NamesQuoted("", items, "");
    RequotedTexts(items);
    SqlTokens.DebacktickIsPiecewise(START, ShowAll(items));
  }

  // ---------------------------------------------------------------- the rewriter's tokens of a printed text

  /** What the rewriter is given for an item that stands at `at`. */
  function ItemTokens(i: Item, at: nat): seq<SqlTokens.SqlToken> {
    var end := at + |Show(i)|;
    match i
    case BlankItem(_) => []
    case LineComment(_) => []
    case BlockComment(_) => []
    case DollarString(_, _) => [SqlTokens.SqlToken(at, end, SqlTokens.LiteralToken, Show(i))]
    case PlainString(_) => [SqlTokens.SqlToken(at, end, SqlTokens.LiteralToken, Show(i))]
    case EscapeString(letter, _, _) =>
      [SqlTokens.SqlToken(at, at + 1, SqlTokens.WordToken, [letter]),
       SqlTokens.SqlToken(at + 1, end, SqlTokens.LiteralToken, Show(i)[1..])]
    case Name(name, _) => [SqlTokens.SqlToken(at, end, SqlTokens.QuotedIdentifier, name)]
    case WordItem(text) => [SqlTokens.SqlToken(at, end, SqlTokens.WordToken, text)]
    case Mark(c) => [SqlTokens.SqlToken(at, end, SqlTokens.SymbolToken, [c])]
  }

  function AllTokens(items: seq<Item>, at: nat): seq<SqlTokens.SqlToken> {
    if items == [] then [] else ItemTokens(items[0], at) + AllTokens(items[1..], at + |Show(items[0])|)
  }

  lemma ItemView(i: Item, at: nat)
    requires i.Name? ==> i.quote in {'"', '`'}
    ensures (forall p | p in Pieces(i) :: WellQuoted(p)) && SqlTokens.TokenView(Pieces(i), at) == ItemTokens(i, at)
    ensures |Texts(Pieces(i))| == |Show(i)|
  {
    hide Double, Undouble, ShowInside, ShowUnits, ShowSegments, SqlTokens.TokenView, Texts, Delimiter;
    if i.Name? {
      NameView(i, at);
    } else if i.EscapeString? {
      EscapeView(i, at);
    } else {
      OneView(Pieces(i)[0], at);
    }
  }

  lemma NameView(i: Item, at: nat)
    requires i.Name? && i.quote in {'"', '`'}
    ensures (forall p | p in Pieces(i) :: WellQuoted(p)) && SqlTokens.TokenView(Pieces(i), at) == ItemTokens(i, at)
    ensures Texts(Pieces(i)) == Show(i)
  {
    hide Double, Undouble, SqlTokens.TokenView, Texts;
    var p, d := Pieces(i)[0], Double(i.name, i.quote);
    assert p.text[1..|p.text| - 1] == d;
    UndoubleDouble(i.name, i.quote);
    OneView(p, at);
  }

  lemma EscapeView(i: Item, at: nat)
    requires i.EscapeString?
    ensures (forall p | p in Pieces(i) :: WellQuoted(p)) && SqlTokens.TokenView(Pieces(i), at) == ItemTokens(i, at)
    ensures Texts(Pieces(i)) == Show(i)
  {
    hide ShowUnits, ShowSegments, SqlTokens.TokenView, Texts;
    var ps := Pieces(i);
    assert ps == [ps[0]] + [ps[1]] && ps[0].text + ps[1].text == Show(i);
    OneView(ps[0], at);
    OneView(ps[1], at + 1);
    ViewAppends([ps[0]], [ps[1]], at);
  }

  lemma OneView(p: Piece, at: nat)
    requires WellQuoted(p)
    ensures SqlTokens.TokenView([p], at) == SqlTokens.Listed(SqlTokens.TokenOf(p, at)) && Texts([p]) == p.text
  {
    assert [p][1..] == [];
    assert p.text + "" == p.text;
  }

  lemma ViewCons(p: Piece, rest: seq<Piece>, at: nat)
    requires WellQuoted(p) && forall q | q in rest :: WellQuoted(q)
    ensures (forall q | q in [p] + rest :: WellQuoted(q))
    ensures SqlTokens.TokenView([p] + rest, at) ==
      SqlTokens.Listed(SqlTokens.TokenOf(p, at)) + SqlTokens.TokenView(rest, at + |p.text|)
    ensures Texts([p] + rest) == p.text + Texts(rest)
  {
    hide WellQuoted, SqlTokens.TokenOf, SqlTokens.Listed;
    assert ([p] + rest)[0] == p && ([p] + rest)[1..] == rest;
  }

  lemma {:induction false} ViewAppends(a: seq<Piece>, b: seq<Piece>, at: nat)
    requires (forall p | p in a :: WellQuoted(p)) && forall p | p in b :: WellQuoted(p)
    ensures (forall p | p in a + b :: WellQuoted(p))
    ensures SqlTokens.TokenView(a + b, at) == SqlTokens.TokenView(a, at) + SqlTokens.TokenView(b, at + |Texts(a)|)
    ensures Texts(a + b) == Texts(a) + Texts(b)
  {
    if a == [] {
      assert a + b == b && Texts(a) == "" && SqlTokens.TokenView(a, at) == [];
    } else {
      hide WellQuoted, SqlTokens.TokenOf, SqlTokens.Listed, SqlTokens.TokenView, Texts;
      var p, rest := a[0], a[1..];
      assert a == [p] + rest && a + b == [p] + (rest + b);
      ViewAppends(rest, b, at + |p.text|);
      ViewCons(p, rest, at);
      ViewCons(p, rest + b, at);
    }
  }

  lemma {:induction false} ItemsView(items: seq<Item>, at: nat)
    requires forall i | i in items && i.Name? :: i.quote in {'"', '`'}
    ensures (forall p | p in PiecesOf(items) :: WellQuoted(p))
    ensures SqlTokens.TokenView(PiecesOf(items), at) == AllTokens(items, at)
  {
    hide WellQuoted, SqlTokens.TokenOf, Pieces, Show, ItemTokens;
    if items != [] {
      ItemView(items[0], at);
      ItemsView(items[1..], at + |Show(items[0])|);
      ViewAppends(Pieces(items[0]), PiecesOf(items[1..]), at);
    }
  }

  /** The rewriter is given the words, names, signs and literals that were printed, where they stand, and nothing else. */
  lemma PrintedTokens(items: seq<Item>)
    requires ItemsOk("", items, "")
    ensures (forall p | p in Lex(START, ShowAll(items)) :: WellQuoted(p))
    ensures SqlTokens.TokenView(Lex(START, ShowAll(items)), 0) == AllTokens(items, 0)
  {
    hide Lex, ItemsOk, ShowAll, PiecesOf, WellQuoted, AllTokens, SqlTokens.TokenView;
    PrintedReads(items);
    NamesQuoted("", items, "");
    ItemsView(items, 0);
  }
}
