/**
 * The translation of backtick-quoted names to double-quoted ones, and what it does to the
 * token sequence of the text.
 */
module Backticks {
  import opened Text
  import opened SqlLexer

  predicate IsDoubleQuoted(p: Piece) { p.kind.Quoted? && p.kind.quote == '"' }

  predicate IsClosedBacktick(p: Piece) { p.kind == Quoted('`', true) }

  /** The name a quoted piece stands for. */
  function Decode(p: Piece): string
    requires p.kind.Quoted?
    requires |p.text| >= (if p.kind.closed then 2 else 1)
  {
    Undouble(if p.kind.closed then p.text[1..|p.text| - 1] else p.text[1..], p.kind.quote)
  }

  predicate WellQuoted(p: Piece) {
    p.kind.Quoted? ==> |p.text| >= (if p.kind.closed then 2 else 1)
  }

  lemma FirstIsWellQuoted(c: Context, s: string)
    requires s != ""
    ensures WellQuoted(First(c, s))
  {
  }

  /** A closed backtick name becomes a double-quoted one; every other piece stays. */
  function Translate(p: Piece): Piece
    requires WellQuoted(p)
  {
    if IsClosedBacktick(p) then Piece(Quoted('"', true), "\"" + Double(Decode(p), '"') + "\"") else p
  }

  function TranslateAll(pieces: seq<Piece>): (r: seq<Piece>)
    requires forall p | p in pieces :: WellQuoted(p)
    ensures |r| == |pieces|
  {
    if pieces == [] then [] else [Translate(pieces[0])] + TranslateAll(pieces[1..])
  }

  /** The translated text of `s`, piece by piece. */
  function Debacktick(c: Context, s: string): string
    decreases |s|
  {
    if s == "" then ""
    else
      var p := First(c, s);
      Translate(p).text + Debacktick(ContextAfter(c, p.text), s[|p.text|..])
  }

  lemma {:induction false} LexIsWellQuoted(c: Context, s: string)
    ensures forall p | p in Lex(c, s) :: WellQuoted(p)
    decreases |s|
  {
    if s != "" {
      var p := First(c, s);
      FirstIsWellQuoted(c, s);
      LexIsWellQuoted(ContextAfter(c, p.text), s[|p.text|..]);
    }
  }

  // ---------------------------------------------------------------- the translated name

  /** A character that does not end a quoted token, an escape or a doubled quote. */
  predicate Inner(h: string, quote: char, escapes: bool) {
    || (|h| == 1 && h[0] != quote && !(escapes && h[0] == '\\'))
    || (|h| == 2 && escapes && h[0] == '\\')
    || (|h| == 2 && h[0] == h[1] == quote && !(escapes && quote == '\\'))
  }

  lemma QuotedSkip(h: string, t: string, quote: char, escapes: bool)
    requires Inner(h, quote, escapes)
    ensures QuotedEnd(h + t, quote, escapes).0 == |h| + QuotedEnd(t, quote, escapes).0
    ensures QuotedEnd(h + t, quote, escapes).1 == QuotedEnd(t, quote, escapes).1
  {
    assert (h + t)[|h|..] == t;
  }

  lemma QuotedStop(t: string, quote: char, escapes: bool)
    requires t != "" && t[0] == quote && (|t| > 1 ==> t[1] != quote) && !(escapes && quote == '\\')
    ensures QuotedEnd(t, quote, escapes) == (1, true)
  {
  }

  lemma {:induction false} QuotedEndOfDoubled(name: string, quote: char, rest: string)
    requires quote != '\\' && (rest == "" || rest[0] != quote)
    ensures QuotedEnd(Double(name, quote) + [quote] + rest, quote, false) == (|Double(name, quote)| + 1, true)
  {
    hide QuotedEnd;
    var d := Double(name, quote) + [quote] + rest;
    if name == "" {
      assert d == [quote] + rest;
      QuotedStop(d, quote, false);
    } else {
      var h := if name[0] == quote then [quote, quote] else [name[0]];
      var tail := Double(name[1..], quote) + [quote] + rest;
      DoubleHead(name, quote, h, rest);
      QuotedSkip(h, tail, quote, false);
      QuotedEndOfDoubled(name[1..], quote, rest);
      hide Double;
    }
  }

  lemma DoubleHead(name: string, quote: char, h: string, rest: string)
    requires name != "" && h == if name[0] == quote then [quote, quote] else [name[0]]
    ensures Double(name, quote) + [quote] + rest == h + (Double(name[1..], quote) + [quote] + rest)
    ensures |Double(name, quote)| == |h| + |Double(name[1..], quote)|
  {
    var d := Double(name[1..], quote);
    assert Double(name, quote) == h + d;
    assert (h + d) + [quote] + rest == h + (d + [quote] + rest);
  }

  /** A translated piece stands for the name the backtick piece stood for. */
  lemma TranslateKeepsName(p: Piece)
    requires p.kind.Quoted? && WellQuoted(p)
    ensures WellQuoted(Translate(p)) && Translate(p).kind.Quoted?
    ensures Decode(Translate(p)) == Decode(p)
  {
    if IsClosedBacktick(p) {
      var d := Double(Decode(p), '"');
      var t := "\"" + d + "\"";
      assert t[1..|t| - 1] == d;
      UndoubleDouble(Decode(p), '"');
    }
  }

  lemma ContextAfterTranslate(c: Context, p: Piece)
    requires WellQuoted(p) && (IsClosedBacktick(p) ==> p.text[|p.text| - 1] == '`')
    ensures ContextAfter(c, Translate(p).text) == ContextAfter(c, p.text)
  {
  }

  lemma BacktickEnds(c: Context, s: string)
    requires s != ""
    ensures IsClosedBacktick(First(c, s)) ==> First(c, s).text[|First(c, s).text| - 1] == '`'
    ensures First(c, s).kind.Quoted? ==> First(c, s).text[0] == First(c, s).kind.quote
  {
    var p := First(c, s);
    if p.kind.Quoted? {
      var r := QuotedEnd(s[1..], s[0], false);
      assert r.1 ==> s[1..][r.0 - 1] == s[r.0];
    }
  }

  // ---------------------------------------------------------------- look-ahead is stable

  /** The translation of `s` begins like `s`, save that a backtick may have become a double quote. */
  lemma Head(c: Context, s: string)
    ensures s == "" <==> Debacktick(c, s) == ""
    ensures s != "" ==>
              var o := Debacktick(c, s);
              o[0] == s[0] || (s[0] == '`' && o[0] == '"' && IsClosedBacktick(First(c, s)))
  {
    if s != "" {
      BacktickEnds(c, s);
    }
  }

  /** `o` agrees with `s` on the first `n` characters and may only differ after them in a backtick. */
  ghost predicate AgreeUpTo(s: string, o: string, n: nat) {
    && n <= |s| && n <= |o|
    && o[..n] == s[..n]
    && (n < |s| <==> n < |o|)
    && (n < |s| ==> o[n] == s[n] || (s[n] == '`' && o[n] == '"'))
  }

  lemma AgreePrepend(x: string, s: string, o: string, n: nat)
    requires AgreeUpTo(s, o, n)
    ensures AgreeUpTo(x + s, x + o, |x| + n)
  {
    assert (x + s)[..|x| + n] == x + s[..n];
    assert (x + o)[..|x| + n] == x + o[..n];
  }

  /** Up to its first backtick a text is not changed. */
  lemma {:induction false} PrefixKept(c: Context, s: string, n: nat)
    requires n <= |s| && forall k :: 0 <= k < n ==> s[k] != '`'
    ensures AgreeUpTo(s, Debacktick(c, s), n)
    decreases |s|
  {
    hide First; hide Debacktick; hide Lex;
    if n == 0 {
      Head(c, s);
    } else {
      var p, c', r := Cut(c, s);
      assert Translate(p) == p;
      var o := Debacktick(c', r);
      if |p.text| <= n {
        PrefixKept(c', r, n - |p.text|);
        AgreePrepend(p.text, r, o, n - |p.text|);
      } else {
        assert s[..n] == p.text[..n] == (p.text + o)[..n];
      }
    }
  }

  /** The first piece of a text, the context after it and the rest. */
  lemma Cut(c: Context, s: string) returns (p: Piece, c': Context, r: string)
    requires s != ""
    ensures p == First(c, s) && c' == ContextAfter(c, p.text) && r == s[|p.text|..]
    ensures s == p.text + r && p.text != "" && WellQuoted(p)
    ensures Debacktick(c, s) == Translate(p).text + Debacktick(c', r)
    ensures IsClosedBacktick(p) ==> s[0] == '`' && p.text[|p.text| - 1] == '`'
    ensures Lex(c, s) == [p] + Lex(c', r)
  {
    p := First(c, s);
    c', r := ContextAfter(c, p.text), s[|p.text|..];
    BacktickEnds(c, s);
  }

  lemma {:induction false} LineEndStable(x: string, r: string, o: string)
    requires LineEnd(x + r) == |x|
    requires o == "" || IsNewline(o[0])
    ensures LineEnd(x + o) == |x|
  {
    if x == "" {
      assert x + o == o;
    } else {
      assert (x + r)[1..] == x[1..] + r;
      assert (x + o)[1..] == x[1..] + o;
      LineEndStable(x[1..], r, o);
    }
  }

  lemma {:induction false} BlockEndStable(x: string, depth: nat, r: string, o: string)
    requires BlockEnd(x + r, depth).0 == |x|
    requires r == "" ==> o == ""
    ensures BlockEnd(x + o, depth).0 == |x|
    decreases |x|
  {
    if r == "" {
      assert x + o == x + r;
    } else if depth != 0 && x != "" {
      assert x + r != "" && x + o != "";
      if |x| > 1 {
        assert (x + r)[..2] == x[..2] == (x + o)[..2];
        assert Opens(x + r, '/', '*') <==> Opens(x + o, '/', '*');
        assert Opens(x + r, '*', '/') <==> Opens(x + o, '*', '/');
        var n := if Opens(x + r, '/', '*') || Opens(x + r, '*', '/') then 2 else 1;
        assert (x + r)[n..] == x[n..] + r;
        assert (x + o)[n..] == x[n..] + o;
        var inner :=
          if Opens(x + r, '/', '*') then depth + 1 else if Opens(x + r, '*', '/') then depth - 1 else depth;
        BlockEndStable(x[n..], inner, r, o);
      }
    }
  }

  lemma {:induction false} QuotedEndStable(x: string, quote: char, escapes: bool, r: string, o: string)
    requires quote != '\\'
    requires QuotedEnd(x + r, quote, escapes).0 <= |x|
    requires QuotedEnd(x + r, quote, escapes).0 == |x| ==> o == "" || o[0] != quote
    requires r == "" ==> o == ""
    ensures QuotedEnd(x + o, quote, escapes) == QuotedEnd(x + r, quote, escapes)
    decreases |x|
  {
    hide QuotedEnd, Inner;
    if r == "" {
      assert x + o == x + r;
    } else {
      QuotedEndPositive(x + r, quote, escapes);
      var n := QuotedStep(x, quote, escapes, r);
      if n == 0 {
        QuotedStop(x + o, quote, escapes);
      } else {
        var h, t := Regroup(x, n, r, o);
        QuotedSkip(h, t + r, quote, escapes);
        QuotedSkip(h, t + o, quote, escapes);
        QuotedEndStable(t, quote, escapes, r, o);
      }
    }
  }

  lemma QuotedEndPositive(s: string, quote: char, escapes: bool)
    requires s != ""
    ensures QuotedEnd(s, quote, escapes).0 >= 1
  {
  }

  /** How many characters of `x` the scan takes next; none when the token closes here. */
  lemma QuotedStep(x: string, quote: char, escapes: bool, r: string) returns (n: nat)
    requires x != "" && r != "" && quote != '\\' && QuotedEnd(x + r, quote, escapes).0 <= |x|
    ensures n <= |x|
    ensures n == 0 ==> QuotedEnd(x + r, quote, escapes) == (1, true) && x[0] == quote && (|x| > 1 ==> x[1] != quote)
    ensures n > 0 ==> Inner(x[..n], quote, escapes)
  {
    n := if (escapes && x[0] == '\\') || (x[0] == quote && |x| > 1 && x[1] == quote) then 2
         else if x[0] == quote then 0 else 1;
  }

  lemma {:induction false} FindStable(x: string, pattern: string, r: string, o: string, k: nat)
    requires Find(x + r, pattern) == Some(k) && k + |pattern| <= |x|
    ensures Find(x + o, pattern) == Some(k)
  {
    if k == 0 {
      assert (x + o)[..|pattern|] == (x + r)[..|pattern|];
    } else {
      assert !(pattern <= x + r);
      assert (x + o)[..|pattern|] == (x + r)[..|pattern|];
      assert (x + r)[1..] == x[1..] + r;
      assert (x + o)[1..] == x[1..] + o;
      FindStable(x[1..], pattern, r, o, k - 1);
    }
  }

  lemma {:induction false} WordEndStable(x: string, r: string, o: string)
    requires WordEnd(x + r) == |x|
    requires o == "" || !IsIdentifierChar(o[0])
    ensures WordEnd(x + o) == |x|
  {
    if x == "" {
      assert x + o == o;
    } else {
      assert (x + r)[1..] == x[1..] + r;
      assert (x + o)[1..] == x[1..] + o;
      WordEndStable(x[1..], r, o);
    }
  }

  /** `Continuation` finds the same position in `s` and `o`, and a quote there in both or in neither. */
  ghost predicate SameContinuation(s: string, o: string, newline: bool) {
    var k := Continuation(s, newline);
    && Continuation(o, newline) == k
    && (k.Some? ==>
          && k.value <= |s| && k.value <= |o|
          && (k.value < |s| && s[k.value] == '\'' <==> k.value < |o| && o[k.value] == '\''))
  }

  lemma SameContinuationSpace(x: string, s: string, o: string, newline: bool)
    requires |x| == 1 && IsSpace(x[0])
    requires SameContinuation(s, o, newline || IsNewline(x[0]))
    ensures SameContinuation(x + s, x + o, newline)
  {
    assert (x + s)[1..] == s;
    assert (x + o)[1..] == o;
  }

  lemma ContinuationOfComment(x: string, s: string, newline: bool)
    requires Opens(x, '-', '-') && LineEnd(x[2..] + s) == |x| - 2
    ensures Continuation(x + s, newline) ==
            match Continuation(s, newline) case Some(k) => Some(k + |x|) case None => None
  {
    var t := x + s;
    assert t[2..] == x[2..] + s;
    assert t[|x|..] == s;
    assert t[0] == '-' && Opens(t, '-', '-');
    hide LineEnd;
    var n := LineEnd(t[2..]) + 2;
    assert n == |x|;
    assert t[n..] == s;
  }

  lemma SameContinuationComment(x: string, s: string, o: string, newline: bool)
    requires Opens(x, '-', '-') && LineEnd(x[2..] + s) == LineEnd(x[2..] + o) == |x| - 2
    requires SameContinuation(s, o, newline)
    ensures SameContinuation(x + s, x + o, newline)
  {
    hide Continuation, LineEnd;
    ContinuationOfComment(x, s, newline);
    ContinuationOfComment(x, o, newline);
  }

  lemma FirstOfComment(c: Context, s: string)
    requires Opens(s, '-', '-')
    ensures First(c, s) == Piece(Comment, s[..LineEnd(s[2..]) + 2])
    ensures First(c, s).text[2..] + s[|First(c, s).text|..] == s[2..]
  {
    hide LineEnd;
  }

  lemma SameContinuationElsewhere(s: string, o: string, newline: bool)
    requires s == "" <==> o == ""
    requires s != "" ==> !IsSpace(s[0]) && (o[0] == s[0] || (s[0] == '`' && o[0] == '"'))
    requires !(Opens(s, '-', '-')) && !(Opens(o, '-', '-'))
    ensures SameContinuation(s, o, newline)
  {
  }

  /** Where a string literal would continue is the same before and after translation. */
  lemma {:induction false} ContinuationStable(c: Context, s: string, newline: bool)
    ensures SameContinuation(s, Debacktick(c, s), newline)
    decreases |s|
  {
    hide First, Debacktick, Lex, Continuation, LineEnd, SameContinuation;
    Head(c, s);
    NotDashes(c, s);
    if s != "" && IsSpace(s[0]) {
      var p, c', r := Cut(c, s);
      FirstOfSpace(c, s);
      ContinuationStable(c', r, newline || IsNewline(s[0]));
      SameContinuationSpace(p.text, r, Debacktick(c', r), newline);
    } else if Opens(s, '-', '-') {
      var p, c', r := Cut(c, s);
      FirstOfComment(c, s);
      ContinuationStable(c', r, newline);
      LineEndStop(s[2..]);
      Head(c', r);
      LineEndStable(p.text[2..], r, Debacktick(c', r));
      SameContinuationComment(p.text, r, Debacktick(c', r), newline);
    } else {
      SameContinuationElsewhere(s, Debacktick(c, s), newline);
    }
  }

  lemma FirstOfSpace(c: Context, s: string)
    requires s != "" && IsSpace(s[0])
    ensures First(c, s) == Piece(Space, s[..1])
  {
  }

  lemma {:induction false} LineEndStop(s: string)
    ensures LineEnd(s) < |s| ==> IsNewline(s[LineEnd(s)])
  {
    if s != "" && !IsNewline(s[0]) {
      LineEndStop(s[1..]);
    }
  }

  /** A two-character comment opener shows in the translation only where it was in the text. */
  lemma NotDashes(c: Context, s: string)
    ensures Opens(Debacktick(c, s), '-', '-') <==> Opens(s, '-', '-')
    ensures Opens(Debacktick(c, s), '/', '*') <==> Opens(s, '/', '*')
  {
    var o := Debacktick(c, s);
    Head(c, s);
    if s != "" && s[0] != '`' {
      PrefixKept(c, s, 1);
    }
  }

  lemma {:induction false} LineEndPrefix(x: string, r: string, o: string)
    requires LineEnd(x + r) < |x|
    ensures LineEnd(x + o) == LineEnd(x + r)
  {
    if !IsNewline(x[0]) {
      assert (x + r)[1..] == x[1..] + r;
      assert (x + o)[1..] == x[1..] + o;
      LineEndPrefix(x[1..], r, o);
    }
  }

  lemma ContinuationOfSpace(x: string, s: string, newline: bool)
    requires |x| == 1 && IsSpace(x[0])
    ensures Continuation(x + s, newline) ==
            match Continuation(s, newline || IsNewline(x[0])) case Some(k) => Some(k + 1) case None => None
  {
    assert (x + s)[1..] == s;
  }

  /** The first `n` characters of `x + r`, which are also those of `x + o`, and what follows them. */
  lemma Regroup(x: string, n: nat, r: string, o: string) returns (h: string, t: string)
    requires n <= |x|
    ensures |h| == n && x == h + t && x + r == h + (t + r) && x + o == h + (t + o)
  {
    h, t := x[..n], x[n..];
  }

  /** A continuation quote inside `x` is found whatever follows `x`. */
  ghost predicate QuoteInside(x: string, k: Option<nat>) {
    k.Some? && k.value < |x| && x[k.value] == '\''
  }

  lemma {:induction false} ContinuationPrefix(x: string, newline: bool, r: string, o: string)
    requires QuoteInside(x, Continuation(x + r, newline))
    ensures Continuation(x + o, newline) == Continuation(x + r, newline)
    decreases |x|
  {
    hide Continuation, LineEnd;
    if IsSpace(x[0]) {
      var h, t := Regroup(x, 1, r, o);
      ContinuationOfSpace(h, t + r, newline);
      ContinuationOfSpace(h, t + o, newline);
      ContinuationPrefix(t, newline || IsNewline(x[0]), r, o);
    } else if Opens(x + r, '-', '-') {
      var n := CommentInside(x, newline, r);
      assert (x + r)[2..] == x[2..] + r;
      assert (x + o)[2..] == x[2..] + o;
      LineEndPrefix(x[2..], r, o);
      var h, t := Regroup(x, n, r, o);
      assert x[2..] + r == h[2..] + (t + r);
      assert x[2..] + o == h[2..] + (t + o);
      ContinuationOfComment(h, t + r, newline);
      ContinuationOfComment(h, t + o, newline);
      ContinuationPrefix(t, newline, r, o);
    } else {
      ContinuationStops(x, newline, r, o);
    }
  }

  lemma CommentInside(x: string, newline: bool, r: string) returns (n: nat)
    requires QuoteInside(x, Continuation(x + r, newline))
    requires !IsSpace(x[0]) && Opens(x + r, '-', '-')
    ensures n == LineEnd((x + r)[2..]) + 2 && n < |x|
  {
    n := LineEnd((x + r)[2..]) + 2;
  }

  lemma ContinuationStops(x: string, newline: bool, r: string, o: string)
    requires x != "" && !IsSpace(x[0]) && !Opens(x + r, '-', '-')
    requires QuoteInside(x, Continuation(x + r, newline))
    ensures Continuation(x + o, newline) == Continuation(x + r, newline)
  {
    assert x[0] == '\'';
  }

  /** The text after `n` characters of an E-string continues it at offset `k`. */
  ghost predicate Continues(s: string, n: nat, k: nat) {
    n <= |s| && Continuation(s[n..], false) == Some(k) && n + k < |s| && s[n + k] == '\''
  }

  lemma EscapeStringUnfold(s: string, n: nat, k: nat)
    requires QuotedEnd(s, '\'', true) == (n, true)
    ensures Continues(s, n, k) ==> EscapeStringEnd(s) == n + k + 1 + EscapeStringEnd(s[n + k + 1..])
    ensures (forall j :: !Continues(s, n, j)) ==> EscapeStringEnd(s) == n
  {
    hide QuotedEnd, Continuation;
    var c := Continuation(s[n..], false);
    if c.Some? && n + c.value < |s| && s[n + c.value] == '\'' {
      assert Continues(s, n, c.value);
    }
  }

  lemma ContinuesIn(y: string, z: string, k: nat)
    ensures Continues(y + z, |y|, k) <==> Continuation(z, false) == Some(k) && k < |z| && z[k] == '\''
  {
    hide Continuation;
    assert (y + z)[|y|..] == z;
    assert k < |z| ==> (y + z)[|y| + k] == z[k];
  }

  /** One segment of an E-string, `y` up to its closing quote, and what `z` after it adds. */
  lemma EscapeStringSegment(y: string, z: string)
    requires QuotedEnd(y + z, '\'', true) == (|y|, true)
    ensures
      var k := Continuation(z, false);
      EscapeStringEnd(y + z) ==
      if QuoteInside(z, k) then |y| + k.value + 1 + EscapeStringEnd(z[k.value + 1..]) else |y|
  {
    hide QuotedEnd, Continuation, EscapeStringEnd, Continues;
    var k := Continuation(z, false);
    if QuoteInside(z, k) {
      ContinuesIn(y, z, k.value);
      EscapeStringUnfold(y + z, |y|, k.value);
      assert (y + z)[|y| + k.value + 1..] == z[k.value + 1..];
    } else {
      forall j: nat ensures !Continues(y + z, |y|, j) {
        ContinuesIn(y, z, j);
      }
      EscapeStringUnfold(y + z, |y|, 0);
    }
  }

  /** A continued E-string keeps its end when what follows it is translated. */
  lemma {:induction false} EscapeStringStable(x: string, r: string, o: string)
    requires EscapeStringEnd(x + r) == |x|
    requires r == "" <==> o == ""
    requires r != "" ==> (r[0] == '\'' <==> o[0] == '\'')
    requires SameContinuation(r, o, false)
    ensures EscapeStringEnd(x + o) == |x|
    decreases |x|
  {
    hide QuotedEnd, Continuation, EscapeStringEnd;
    var q := QuotedEnd(x + r, '\'', true);
    EscapeStringUnclosed(x + r);
    EscapeStringUnclosed(x + o);
    QuotedEndClosed(x + r, '\'', true);
    QuotedEndStable(x, '\'', true, r, o);
    if q.1 {
      var y, z := Regroup(x, q.0, r, o);
      EscapeStringSegment(y, z + r);
      EscapeStringSegment(y, z + o);
      if z == "" {
        assert z + r == r && z + o == o;
      } else {
        EscapeStringLater(x, y, z, r, o);
      }
    }
  }

  lemma EscapeStringUnclosed(s: string)
    ensures
      var q := QuotedEnd(s, '\'', true);
      && EscapeStringEnd(s) >= q.0
      && (!q.1 ==> EscapeStringEnd(s) == q.0)
  {
    hide QuotedEnd, Continuation;
  }

  lemma EscapeStringLater(x: string, y: string, z: string, r: string, o: string)
    requires y != "" && z != "" && x == y + z
    requires r == "" <==> o == ""
    requires r != "" ==> (r[0] == '\'' <==> o[0] == '\'')
    requires SameContinuation(r, o, false)
    requires var k := Continuation(z + r, false);
             QuoteInside(z + r, k) && |y| + k.value + 1 + EscapeStringEnd((z + r)[k.value + 1..]) == |x|
    ensures var k := Continuation(z + o, false);
             QuoteInside(z + o, k) && |y| + k.value + 1 + EscapeStringEnd((z + o)[k.value + 1..]) == |x|
    decreases |x|, 0
  {
    hide QuotedEnd, Continuation, SameContinuation, EscapeStringEnd;
    var k := Continuation(z + r, false).value;
    assert k < |z|;
    ContinuationPrefix(z, false, r, o);
    var h, t := Regroup(z, k + 1, r, o);
    assert (z + r)[k + 1..] == t + r;
    assert (z + o)[k + 1..] == t + o;
    EscapeStringStable(t, r, o);
  }

  /** A closed quoted token is not followed by its quote. */
  lemma {:induction false} QuotedEndClosed(s: string, quote: char, escapes: bool)
    ensures
      var q := QuotedEnd(s, quote, escapes);
      q.1 && q.0 < |s| ==> s[q.0] != quote
  {
    if s == "" {
    } else if (escapes && s[0] == '\\') || (s[0] == quote && |s| > 1 && s[1] == quote) {
      if |s| > 1 {
        QuotedEndClosed(s[2..], quote, escapes);
      }
    } else if s[0] != quote {
      QuotedEndClosed(s[1..], quote, escapes);
    }
  }

  // ---------------------------------------------------------------- dollar strings

  lemma {:induction false} FindFirst(s: string, c: char)
    ensures
      var k := Find(s, [c]);
      && (k.None? ==> forall i :: 0 <= i < |s| ==> s[i] != c)
      && (k.Some? ==> s[k.value] == c && forall i :: 0 <= i < k.value ==> s[i] != c)
  {
    if s != "" && !([c] <= s) {
      FindFirst(s[1..], c);
    }
  }

  lemma DollarDelimiterStable(c: Context, x: string, r: string, o: string, n: nat)
    requires x != "" && x[0] == '$' && n <= |x|
    requires DollarDelimiter(c, x + r) == Some(n)
    ensures DollarDelimiter(c, x + o) == Some(n)
  {
    hide Find;
    assert (x + r)[1..] == x[1..] + r;
    assert (x + o)[1..] == x[1..] + o;
    FindStable(x[1..], "$", r, o, n - 2);
    assert (x + r)[1..n - 1] == (x + o)[1..n - 1];
  }

  lemma DollarEndStable(x: string, r: string, o: string, n: nat)
    requires 0 < n <= |x| && DollarEnd(x + r, n) == |x|
    requires r == "" ==> o == ""
    ensures DollarEnd(x + o, n) == |x|
  {
    hide Find;
    if r == "" {
      assert x + o == x + r;
    } else {
      assert (x + r)[..n] == (x + o)[..n] == x[..n];
      assert (x + r)[n..] == x[n..] + r;
      assert (x + o)[n..] == x[n..] + o;
      FindStable(x[n..], x[..n], r, o, |x| - n - n);
    }
  }

  lemma TagHoldsNoQuote(s: string, n: nat)
    requires 2 <= n <= |s| && s[0] == '$' && s[n - 1] == '$' && IsTag(s[1..n - 1])
    ensures forall k :: 0 <= k < n ==> s[k] != '`' && s[k] != '"'
  {
    forall k | 0 < k < n - 1 ensures s[k] != '`' && s[k] != '"' {
      assert s[1..n - 1][k - 1] == s[k];
    }
  }

  /** A `$` that opens no dollar string opens none after translation: tags hold no quotes. */
  lemma NoDollarStable(c: Context, x: string, r: string, o: string, n: nat)
    requires x != "" && x[0] == '$' && DollarDelimiter(c, x + r).None?
    requires AgreeUpTo(x + r, x + o, n)
    requires n < |x + r| ==> (x + r)[n] == '`'
    ensures DollarDelimiter(c, x + o).None?
  {
    hide Find;
    var d := DollarDelimiter(c, x + o);
    if d.Some? {
      FindFirst((x + o)[1..], '$');
      TagHoldsNoQuote(x + o, d.value);
      assert AgreeUpTo(x + r, x + o, n);
      assert d.value <= n;
      var z := (x + o)[..d.value];
      assert z == (x + o)[..n][..d.value] == (x + r)[..d.value];
      assert x + o == z + (x + o)[d.value..];
      assert x + r == z + (x + r)[d.value..];
      DollarDelimiterStable(c, z, (x + o)[d.value..], (x + r)[d.value..], d.value);
    }
  }

  // ---------------------------------------------------------------- one piece is stable

  /** What `Head` promises of the rest `r` of a text and its translation `o`. */
  predicate Follows(r: string, o: string) {
    && (r == "" <==> o == "")
    && (r != "" ==> o[0] == r[0] || (r[0] == '`' && o[0] == '"'))
  }

  predicate FirstIs(c: Context, x: string, r: string) { x != "" && First(c, x + r).text == x }

  lemma StableComment(c: Context, x: string, r: string, o: string)
    requires FirstIs(c, x, r) && First(c, x + r).kind == Comment && Follows(r, o)
    ensures First(c, x + o) == First(c, x + r)
  {
    hide LineEnd, BlockEnd, DollarDelimiter, EscapeStringEnd, QuotedEnd, WordEnd, DollarEnd;
    assert |x| >= 2;
    assert (x + r)[2..] == x[2..] + r;
    assert (x + o)[2..] == x[2..] + o;
    if Opens(x, '-', '-') {
      LineEndStop(x[2..] + r);
      LineEndStable(x[2..], r, o);
    } else {
      BlockEndStable(x[2..], 1, r, o);
    }
  }

  lemma StableDollar(c: Context, x: string, r: string, o: string)
    requires FirstIs(c, x, r) && x[0] == '$' && First(c, x + r).kind == Literal && Follows(r, o)
    ensures First(c, x + o) == First(c, x + r)
  {
    hide LineEnd, BlockEnd, DollarDelimiter, EscapeStringEnd, QuotedEnd, WordEnd, DollarEnd;
    var d := DollarDelimiter(c, x + r);
    assert d.Some? && DollarEnd(x + r, d.value) == |x|;
    DollarDelimiterStable(c, x, r, o, d.value);
    DollarEndStable(x, r, o, d.value);
  }

  lemma QuotedEndFollowed(x: string, quote: char, r: string, o: string)
    requires quote != '\\' && QuotedEnd(x + r, quote, false).0 == |x| && Follows(r, o)
    requires o != "" && r != "" ==> r[0] == quote || o[0] != quote
    ensures QuotedEnd(x + o, quote, false) == QuotedEnd(x + r, quote, false)
  {
    hide QuotedEnd;
    QuotedEndClosed(x + r, quote, false);
    if r != "" {
      assert (x + r)[|x|] == r[0];
    }
    QuotedEndStable(x, quote, false, r, o);
  }

  lemma StringLength(c: Context, x: string, r: string)
    requires x != "" && x[0] == '\''
    ensures
      var n := if c.escapeBefore then EscapeStringEnd(x[1..] + r) else QuotedEnd(x[1..] + r, '\'', false).0;
      First(c, x + r) == Piece(Literal, (x + r)[..n + 1])
  {
    hide LineEnd, BlockEnd, DollarDelimiter, EscapeStringEnd, QuotedEnd, WordEnd, DollarEnd;
    assert (x + r)[1..] == x[1..] + r;
  }

  lemma StableString(c: Context, x: string, r: string, o: string)
    requires FirstIs(c, x, r) && x[0] == '\'' && Follows(r, o) && SameContinuation(r, o, false)
    ensures First(c, x + o) == First(c, x + r)
  {
    hide First, EscapeStringEnd, QuotedEnd, SameContinuation;
    StringLength(c, x, r);
    StringLength(c, x, o);
    if c.escapeBefore {
      EscapeStringStable(x[1..], r, o);
    } else {
      QuotedEndFollowed(x[1..], '\'', r, o);
    }
  }

  lemma QuotedLength(c: Context, x: string, r: string)
    requires x != "" && (x[0] == '"' || x[0] == '`')
    ensures
      var q := QuotedEnd(x[1..] + r, x[0], false);
      First(c, x + r) == Piece(Quoted(x[0], q.1), (x + r)[..q.0 + 1])
  {
    hide LineEnd, BlockEnd, DollarDelimiter, EscapeStringEnd, QuotedEnd, WordEnd, DollarEnd;
    assert (x + r)[1..] == x[1..] + r;
  }

  lemma StableQuoted(c: Context, x: string, r: string, o: string)
    requires FirstIs(c, x, r) && (x[0] == '"' || x[0] == '`') && Follows(r, o)
    requires o != "" ==> o[0] != x[0]
    ensures First(c, x + o) == First(c, x + r)
  {
    hide First, QuotedEnd;
    QuotedLength(c, x, r);
    QuotedLength(c, x, o);
    QuotedEndFollowed(x[1..], x[0], r, o);
  }

  lemma StableWord(c: Context, x: string, r: string, o: string)
    requires FirstIs(c, x, r) && First(c, x + r).kind == Word && Follows(r, o)
    requires x[0] == '$' ==> DollarDelimiter(c, x + o).None?
    ensures First(c, x + o) == First(c, x + r)
  {
    hide LineEnd, BlockEnd, DollarDelimiter, EscapeStringEnd, QuotedEnd, DollarEnd, WordEnd;
    WordEndStable(x, r, o);
  }

  lemma StableCharacter(c: Context, x: string, r: string, o: string)
    requires FirstIs(c, x, r) && First(c, x + r).kind in {Space, Symbol} && Follows(r, o)
    ensures First(c, x + o) == First(c, x + r)
  {
    hide LineEnd, BlockEnd, DollarDelimiter, EscapeStringEnd, QuotedEnd, WordEnd, DollarEnd;
  }

  // ---------------------------------------------------------------- the token sequence

  /** Two neighbours that fuse once both are double-quoted. */
  predicate Touching(p: Piece, q: Piece) {
    || (IsDoubleQuoted(p) && IsClosedBacktick(q))
    || (IsClosedBacktick(p) && IsDoubleQuoted(q))
  }

  predicate SomeTouching(pieces: seq<Piece>) {
    exists k :: 0 <= k < |pieces| - 1 && Touching(pieces[k], pieces[k + 1])
  }

  lemma BacktickStable(c: Context, x: string, r: string, o: string)
    requires FirstIs(c, x, r) && IsClosedBacktick(First(c, x + r)) && |x| >= 2
    requires o == "" || o[0] != '"'
    ensures var t := Translate(First(c, x + r));
            First(c, t.text + o) == t
  {
    hide First, QuotedEnd;
    var p := First(c, x + r);
    var d := Double(Decode(p), '"');
    var t := Translate(p).text;
    assert t == "\"" + d + "\"";
    assert t[1..] == d + "\"";
    assert t[1..] + o == d + "\"" + o;
    QuotedEndOfDoubled(Decode(p), '"', o);
    QuotedLength(c, t, o);
  }

  /** The kind of a first piece tells the character it starts with. */
  lemma KindStart(c: Context, s: string)
    requires s != ""
    ensures
      var p := First(c, s);
      && (p.kind.Quoted? <==> s[0] == '"' || s[0] == '`')
      && (p.kind.Quoted? ==> p.kind.quote == s[0])
      && (p.kind == Literal ==> s[0] == '$' || s[0] == '\'')
      && (s[0] == '\'' ==> p.kind == Literal)
      && (p.kind == Word && s[0] == '$' ==> DollarDelimiter(c, s).None?)
      && p.text[0] == s[0]
  {
    hide LineEnd, BlockEnd, DollarDelimiter, EscapeStringEnd, QuotedEnd, WordEnd, DollarEnd;
  }

  lemma NoDollarAfter(c: Context, x: string, c': Context, r: string)
    requires x != "" && x[0] == '$' && DollarDelimiter(c, x + r).None?
    requires forall k :: 0 <= k < |x| ==> x[k] != '`'
    ensures DollarDelimiter(c, x + Debacktick(c', r)).None?
  {
    hide DollarDelimiter, First, Debacktick, Find;
    var b := Find(r, "`");
    FindFirst(r, '`');
    var n := if b.Some? then b.value else |r|;
    PrefixKept(c', r, n);
    var o := Debacktick(c', r);
    AgreePrepend(x, r, o, n);
    NoDollarStable(c, x, r, o, |x| + n);
  }

  lemma WordHasNoBacktick(c: Context, s: string)
    requires s != "" && First(c, s).kind == Word
    ensures forall k :: 0 <= k < |First(c, s).text| ==> First(c, s).text[k] != '`'
  {
    hide LineEnd, BlockEnd, DollarDelimiter, EscapeStringEnd, QuotedEnd, DollarEnd;
  }

  /** A piece keeps its boundaries in the translation unless it touches the next one. */
  lemma FirstStable(c: Context, s: string)
    requires s != ""
    requires var p := First(c, s); var r := s[|p.text|..];
             r == "" || !Touching(p, First(ContextAfter(c, p.text), r))
    ensures
      var p := First(c, s);
      var o := Debacktick(ContextAfter(c, p.text), s[|p.text|..]);
      WellQuoted(p) && First(c, Translate(p).text + o) == Translate(p)
  {
    hide First, Debacktick, Lex, Continuation, SameContinuation, DollarDelimiter, AgreeUpTo, ContextAfter;
    var p, c', r := Cut(c, s);
    var o := Debacktick(c', r);
    var x := p.text;
    KindStart(c, s);
    Head(c', r);
    assert Follows(r, o);
    if r != "" {
      KindStart(c', r);
    }
    match p.kind
    case Space => StableCharacter(c, x, r, o);
    case Symbol => StableCharacter(c, x, r, o);
    case Comment => StableComment(c, x, r, o);
    case Literal =>
      if x[0] == '$' {
        StableDollar(c, x, r, o);
      } else {
        ContinuationStable(c', r, false);
        StableString(c, x, r, o);
      }
    case Word =>
      if x[0] == '$' {
        WordHasNoBacktick(c, s);
        NoDollarAfter(c, x, c', r);
      }
      StableWord(c, x, r, o);
    case Quoted(q, closed) =>
      QuotedFollow(c, s);
      if IsClosedBacktick(p) {
        BacktickStable(c, x, r, o);
      } else {
        StableQuoted(c, x, r, o);
      }
  }

  /** What can follow a quoted piece. */
  lemma QuotedFollow(c: Context, s: string)
    requires s != "" && First(c, s).kind.Quoted?
    ensures
      var p := First(c, s); var r := s[|p.text|..];
      && (!p.kind.closed ==> r == "")
      && (p.kind.closed && r != "" ==> r[0] != p.kind.quote)
  {
    hide LineEnd, BlockEnd, DollarDelimiter, EscapeStringEnd, QuotedEnd, WordEnd, DollarEnd;
    QuotedEndClosed(s[1..], s[0], false);
  }

  lemma {:induction false} QuotedFuse(x: string, y: string, quote: char)
    requires quote != '\\' && QuotedEnd(x, quote, false) == (|x|, true)
    ensures QuotedEnd(x + [quote] + y, quote, false).0 == |x| + 1 + QuotedEnd(y, quote, false).0
    ensures QuotedEnd(x + [quote] + y, quote, false).1 == QuotedEnd(y, quote, false).1
    decreases |x|
  {
    if |x| == 1 {
      hide QuotedEnd;
      assert x[0] == quote by { QuotedEndLast(x, quote); }
      assert x + [quote] + y == [quote, quote] + y;
      QuotedSkip([quote, quote], y, quote, false);
    } else {
      var n := if x[0] == quote then 2 else 1;
      QuotedLong(x, quote);
      hide QuotedEnd;
      var h, t := Regroup(x, n, "", [quote] + y);
      QuotedSkip(h, t, quote, false);
      QuotedSkip(h, t + ([quote] + y), quote, false);
      assert h + (t + ([quote] + y)) == x + [quote] + y;
      assert t + ([quote] + y) == t + [quote] + y;
      QuotedFuse(t, y, quote);
    }
  }

  lemma QuotedEndLast(x: string, quote: char)
    requires QuotedEnd(x, quote, false) == (|x|, true)
    ensures x != "" && x[|x| - 1] == quote
  {
  }

  lemma QuotedLong(x: string, quote: char)
    requires |x| != 1 && QuotedEnd(x, quote, false) == (|x|, true)
    ensures |x| > 1 && (x[0] == quote ==> x[1] == quote)
  {
  }

  /** The translation of a closed quoted piece closes where it should when nothing follows. */
  lemma TranslateCloses(c: Context, s: string)
    requires s != "" && First(c, s).kind.Quoted? && First(c, s).kind.closed
    requires IsClosedBacktick(First(c, s)) || IsDoubleQuoted(First(c, s))
    ensures WellQuoted(First(c, s))
    ensures var t := Translate(First(c, s)).text;
            t != "" && t[0] == '"' && QuotedEnd(t[1..], '"', false) == (|t| - 1, true)
  {
    hide First, Lex, Debacktick, QuotedEnd;
    var p, c', r := Cut(c, s);
    KindStart(c, s);
    var t := Translate(p).text;
    if IsClosedBacktick(p) {
      QuotedEndOfDoubled(Decode(p), '"', "");
      assert t[1..] == Double(Decode(p), '"') + "\"" + "";
    } else {
      QuotedLength(c, t, r);
      QuotedEndStable(t[1..], '"', false, r, "");
      assert t[1..] + "" == t[1..];
    }
  }

  /** A touching pair is read back as one longer token. */
  lemma TouchingFuses(c: Context, s: string)
    requires s != ""
    requires var p := First(c, s); var r := s[|p.text|..];
             r != "" && Touching(p, First(ContextAfter(c, p.text), r))
    ensures WellQuoted(First(c, s))
    ensures
      var p := First(c, s);
      var t := Translate(p).text;
      var o := Debacktick(ContextAfter(c, p.text), s[|p.text|..]);
      && o != "" && o[0] == '"' && t != "" && t[0] == '"'
      && QuotedEnd((t + o)[1..], '"', false).0 == |t| + QuotedEnd(o[1..], '"', false).0
      && QuotedEnd((t + o)[1..], '"', false).1 == QuotedEnd(o[1..], '"', false).1
      && First(c, t + o) != Translate(p)
  {
    hide First, Lex, Debacktick, QuotedEnd, ContextAfter;
    var p, c', r := Cut(c, s);
    var t, o := Translate(p).text, Debacktick(c', r);
    KindStart(c, s);
    KindStart(c', r);
    Head(c', r);
    QuotedFollow(c, s);
    assert r[0] == '`' ==> o[0] == '"' by { var q, _, _ := Cut(c', r); }
    TranslateCloses(c, s);
    QuotedFuse(t[1..], o[1..], '"');
    assert (t + o)[1..] == t[1..] + "\"" + o[1..];
    QuotedLength(c, t + o, "");
    assert t + o + "" == t + o && (t + o)[1..] + "" == (t + o)[1..];
  }

  /** Reading the translation back gives the translated tokens, as long as no two fuse. */
  lemma {:induction false} Relex(c: Context, s: string)
    requires !SomeTouching(Lex(c, s))
    ensures forall p | p in Lex(c, s) :: WellQuoted(p)
    ensures Lex(c, Debacktick(c, s)) == TranslateAll(Lex(c, s))
    decreases |s|
  {
    LexIsWellQuoted(c, s);
    if s != "" {
      hide First, Debacktick, Lex, Decode, ContextAfter;
      var p, c', r := Cut(c, s);
      var o := Debacktick(c', r);
      var ps := Lex(c', r);
      TailNotTouching(p, ps);
      LexHead(c', r);
      Relex(c', r);
      FirstStable(c, s);
      var t := Translate(p);
      CutOff(c, t, o, c', p);
      assert Lex(c, s)[1..] == ps;
    } else {
      LexHead(c, s);
      LexHead(c, Debacktick(c, s));
    }
  }

  lemma TailNotTouching(p: Piece, ps: seq<Piece>)
    requires !SomeTouching([p] + ps)
    ensures !SomeTouching(ps)
    ensures ps != [] ==> !Touching(p, ps[0])
  {
    var all := [p] + ps;
    if ps != [] {
      assert all[1] == ps[0] && Touching(all[0], all[1]) == Touching(p, ps[0]);
    }
    forall k | 0 <= k < |ps| - 1 ensures !Touching(ps[k], ps[k + 1]) {
      assert ps[k] == all[k + 1] && ps[k + 1] == all[k + 2];
    }
  }

  lemma LexHead(c: Context, s: string)
    ensures s == "" <==> Lex(c, s) == []
    ensures s == "" <==> Debacktick(c, s) == ""
    ensures s != "" ==> Lex(c, s)[0] == First(c, s)
  {
    hide First;
    Head(c, s);
  }

  /** A text starting with the translated piece `t` is cut after it. */
  lemma CutOff(c: Context, t: Piece, o: string, c': Context, p: Piece)
    requires t.text != "" && First(c, t.text + o) == t
    requires WellQuoted(p) && t == Translate(p) && c' == ContextAfter(c, p.text)
    requires IsClosedBacktick(p) ==> p.text[|p.text| - 1] == '`'
    ensures Lex(c, t.text + o) == [t] + Lex(c', o)
    ensures WellQuoted(t) && Debacktick(c, t.text + o) == Translate(t).text + Debacktick(c', o)
  {
    hide First;
    ContextAfterTranslate(c, p);
    assert (t.text + o)[|t.text|..] == o;
  }

  /** A touching pair anywhere changes the token sequence. */
  lemma {:induction false} FusedTokensDiffer(c: Context, s: string)
    requires SomeTouching(Lex(c, s))
    ensures forall p | p in Lex(c, s) :: WellQuoted(p)
    ensures Lex(c, Debacktick(c, s)) != TranslateAll(Lex(c, s))
    decreases |s|
  {
    LexIsWellQuoted(c, s);
    LexHead(c, s);
    hide First, Debacktick, Lex, Decode, ContextAfter;
    var p, c', r := Cut(c, s);
    var o := Debacktick(c', r);
    var ps := Lex(c', r);
    assert Lex(c, s)[1..] == ps;
    LexHead(c', r);
    assert r != "";
    var t := Translate(p);
    assert TranslateAll(Lex(c, s)) == [t] + TranslateAll(ps);
    if Touching(p, ps[0]) {
      TouchingFuses(c, s);
      LexHead(c, t.text + o);
    } else {
      TouchingLater(p, ps);
      FusedTokensDiffer(c', r);
      FirstStable(c, s);
      CutOff(c, t, o, c', p);
      assert ([t] + Lex(c', o))[1..] == Lex(c', o);
      assert ([t] + TranslateAll(ps))[1..] == TranslateAll(ps);
    }
  }

  lemma TouchingLater(p: Piece, ps: seq<Piece>)
    requires ps != [] && SomeTouching([p] + ps) && !Touching(p, ps[0])
    ensures SomeTouching(ps)
  {
    var all := [p] + ps;
    var k :| 0 <= k < |all| - 1 && Touching(all[k], all[k + 1]);
    assert k > 0 && all[k] == ps[k - 1] && all[k + 1] == ps[k];
  }

  /**
   * Translation keeps the token sequence, each closed backtick name becoming the double-quoted
   * token of the same name, exactly when no double-quoted token touches a backtick name.
   */
  lemma TokensPreservedIff(s: string)
    ensures forall p | p in Lex(START, s) :: WellQuoted(p)
    ensures Lex(START, Debacktick(START, s)) == TranslateAll(Lex(START, s)) <==> !SomeTouching(Lex(START, s))
  {
    if SomeTouching(Lex(START, s)) {
      FusedTokensDiffer(START, s);
    } else {
      Relex(START, s);
    }
  }

  lemma ContextAfterQuote(c: Context, text: string)
    requires text != "" && (text[|text| - 1] == '"' || text[|text| - 1] == '`')
    ensures ContextAfter(c, text) == START
  {
  }

  /** A name printed between quotes, its own quotes doubled, is read as one piece of that name. */
  lemma QuotedNameLexes(c: Context, name: string, quote: char, rest: string)
    requires (quote == '"' || quote == '`') && (rest == "" || rest[0] != quote)
    ensures
      var text := [quote] + Double(name, quote) + [quote];
      var p := Piece(Quoted(quote, true), text);
      && First(c, text + rest) == p
      && Lex(c, text + rest) == [p] + Lex(START, rest)
      && Decode(p) == name
  {
    hide First, QuotedEnd, Lex, ContextAfter;
    var text := [quote] + Double(name, quote) + [quote];
    QuotedEndOfDoubled(name, quote, rest);
    assert text[1..] == Double(name, quote) + [quote];
    assert text[1..] + rest == Double(name, quote) + [quote] + rest;
    QuotedLength(c, text, rest);
    LexCut(c, text, rest);
    ContextAfterQuote(c, text);
    assert text[1..|text| - 1] == Double(name, quote);
    UndoubleDouble(name, quote);
  }

  /** The smallest text whose two names fuse into one: `"a"` touching a backticked `b`. */
  lemma TouchingExample()
    ensures Lex(START, "\"a\"`b`") == [Piece(Quoted('"', true), "\"a\""), Piece(Quoted('`', true), "`b`")]
    ensures SomeTouching(Lex(START, "\"a\"`b`"))
    ensures forall p | p in Lex(START, "\"a\"`b`") :: WellQuoted(p)
    ensures Lex(START, Debacktick(START, "\"a\"`b`")) != TranslateAll(Lex(START, "\"a\"`b`"))
  {
    hide First, QuotedEnd, Lex, Debacktick;
    assert Double("a", '"') == "a" && Double("b", '`') == "b";
    QuotedNameLexes(START, "b", '`', "");
    QuotedNameLexes(START, "a", '"', "`b`");
    assert ['"'] + "a" + ['"'] == "\"a\"" && "\"a\"" + "`b`" == "\"a\"`b`";
    assert ['`'] + "b" + ['`'] == "`b`" && "`b`" + "" == "`b`";
    LexHead(START, "");
    var ps := Lex(START, "\"a\"`b`");
    assert Touching(ps[0], ps[1]);
    TokensPreservedIff("\"a\"`b`");
  }

  // ---------------------------------------------------------------- idempotence

  /** After the double-quoted token at the head of a translation comes the translation of a shorter text. */
  lemma {:induction false} Chain(c: Context, s: string) returns (s': string)
    requires s != "" && (IsDoubleQuoted(First(c, s)) || IsClosedBacktick(First(c, s)))
    ensures Debacktick(c, s) != "" && Debacktick(c, s)[0] == '"'
    ensures
      var w := Debacktick(c, s);
      var q := QuotedEnd(w[1..], '"', false);
      && (!q.1 ==> q.0 == |w| - 1)
      && (q.1 ==> |s'| < |s| && w[q.0 + 1..] == Debacktick(START, s'))
    decreases |s|
  {
    hide First, Lex, Debacktick, QuotedEnd, ContextAfter;
    var p, c', r := Cut(c, s);
    var t, o := Translate(p).text, Debacktick(c', r);
    var w := t + o;
    KindStart(c, s);
    if r != "" && Touching(p, First(c', r)) {
      TouchingFuses(c, s);
      assert w[1..] == t[1..] + o;
      s' := Chain(c', r);
      var q := QuotedEnd(o[1..], '"', false);
      if q.1 {
        assert w[|t| + q.0 + 1..] == o[q.0 + 1..];
      }
    } else {
      s' := ChainEnds(c, s);
    }
  }

  /** The chain of fused tokens ends at a token that touches no other. */
  lemma ChainEnds(c: Context, s: string) returns (s': string)
    requires s != "" && (IsDoubleQuoted(First(c, s)) || IsClosedBacktick(First(c, s)))
    requires var p := First(c, s);
             var r := s[|p.text|..];
             r == "" || !Touching(p, First(ContextAfter(c, p.text), r))
    ensures Debacktick(c, s) != "" && Debacktick(c, s)[0] == '"'
    ensures
      var w := Debacktick(c, s);
      var q := QuotedEnd(w[1..], '"', false);
      && (!q.1 ==> q.0 == |w| - 1)
      && (q.1 ==> |s'| < |s| && w[q.0 + 1..] == Debacktick(START, s'))
  {
    hide First, Lex, Debacktick, QuotedEnd, ContextAfter;
    var p, c', r := Cut(c, s);
    var t, o := Translate(p).text, Debacktick(c', r);
    var w := t + o;
    KindStart(c, s);
    FirstStable(c, s);
    assert w[0] == t[0] == '"';
    QuotedLength(c, w, "");
    assert w + "" == w && w[1..] + "" == w[1..];
    QuotedFollow(c, s);
    s' := r;
    if p.kind.closed {
      QuotedContext(c, s);
    }
  }

  lemma QuotedContext(c: Context, s: string)
    requires s != "" && First(c, s).kind.Quoted? && First(c, s).kind.closed
    ensures ContextAfter(c, First(c, s).text) == START
  {
    BacktickEnds(c, s);
    var r := QuotedEnd(s[1..], s[0], false);
    assert s[1..][r.0 - 1] == s[r.0];
  }

  /** Translating twice is translating once, on every text. */
  lemma {:induction false} Idempotent(c: Context, s: string)
    ensures Debacktick(c, Debacktick(c, s)) == Debacktick(c, s)
    decreases |s|
  {
    if s == "" {
    } else {
      hide First, Lex, Debacktick, QuotedEnd, ContextAfter;
      var p, c', r := Cut(c, s);
      var t, o := Translate(p).text, Debacktick(c', r);
      var w := t + o;
      if r != "" && Touching(p, First(c', r)) {
        TouchingFuses(c, s);
        var s' := Chain(c, s);
        QuotedLength(c, w, "");
        assert w + "" == w && w[1..] + "" == w[1..];
        var q := QuotedEnd(w[1..], '"', false);
        var p2, c2, r2 := Cut(c, w);
        assert p2 == Piece(Quoted('"', q.1), w[..q.0 + 1]);
        if q.1 {
          QuotedContext(c, w);
          Idempotent(START, s');
          assert r2 == Debacktick(START, s');
        } else {
          assert r2 == "";
          Head(c2, r2);
        }
      } else {
        FirstStable(c, s);
        Idempotent(c', r);
        CutOff(c, Translate(p), o, c', p);
      }
    }
  }
}