/**
 * The three hand-written scanners of the statement service, as the loops they are: the backtick
 * translator, the token-span pass and the tokenizer inside the external-table rewriter.
 */
module SqlScanners {
  import opened Text
  import opened SqlLexer
  import opened Backticks

  /** What a scanner at position `i` of `sql` sees behind it. */
  function ContextAt(sql: string, i: nat): (c: Context)
    requires i <= |sql|
    ensures c.identBefore <==> i > 0 && IsIdentifierChar(sql[i - 1])
    ensures c.escapeBefore <==> i > 0 && IsEscapeLetter(sql[i - 1]) && (i == 1 || !IsIdentifierChar(sql[i - 2]))
  {
    ContextAfter(START, sql[..i])
  }

  lemma ContextAdvance(sql: string, i: nat, n: nat)
    requires i + n <= |sql|
    ensures ContextAfter(ContextAt(sql, i), sql[i..i + n]) == ContextAt(sql, i + n)
  {
    ContextAfterAppend(START, sql[..i], sql[i..i + n]);
    assert sql[..i] + sql[i..i + n] == sql[..i + n];
  }

  // ---------------------------------------------------------------- single tokens

  /** The scan at `i` and the scan `n` characters on, the first `n` being no end of the token. */
  lemma QuotedAdvance(sql: string, i: nat, n: nat, quote: char, escapes: bool)
    requires i + n <= |sql| && Inner(sql[i..i + n], quote, escapes)
    ensures QuotedEnd(sql[i..], quote, escapes).0 == n + QuotedEnd(sql[i + n..], quote, escapes).0
    ensures QuotedEnd(sql[i..], quote, escapes).1 == QuotedEnd(sql[i + n..], quote, escapes).1
  {
    hide QuotedEnd;
    SplitAt(sql, i, i + n);
    QuotedSkip(sql[i..i + n], sql[i + n..], quote, escapes);
  }

  lemma QuotedLast(s: string, quote: char, escapes: bool)
    ensures s == "" ==> QuotedEnd(s, quote, escapes) == (0, false)
    ensures escapes && s == "\\" ==> QuotedEnd(s, quote, escapes) == (1, false)
  {
  }

  /** The end and closed state of the quoted token that starts at `start`. */
  method ScanQuotedToken(sql: string, start: nat, quote: char, escapes: bool) returns (i: nat, closed: bool)
    requires start < |sql| && quote != '\\'
    ensures i <= |sql|
    ensures (i - start - 1, closed) == QuotedEnd(sql[start + 1..], quote, escapes)
  {
    hide QuotedEnd;
    i := start + 1;
    while i < |sql|
      invariant start + 1 <= i <= |sql|
      invariant i - start - 1 + QuotedEnd(sql[i..], quote, escapes).0 == QuotedEnd(sql[start + 1..], quote, escapes).0
      invariant QuotedEnd(sql[i..], quote, escapes).1 == QuotedEnd(sql[start + 1..], quote, escapes).1
    {
      if escapes && sql[i] == '\\' {
        if i + 2 <= |sql| {
          QuotedAdvance(sql, i, 2, quote, escapes);
        } else {
          assert sql[i..] == "\\";
          QuotedLast(sql[i..], quote, escapes);
          QuotedLast(sql[i + 1..], quote, escapes);
        }
        i := if i + 2 <= |sql| then i + 2 else |sql|;
      } else if sql[i] != quote {
        QuotedAdvance(sql, i, 1, quote, escapes);
        i := i + 1;
      } else if i + 1 < |sql| && sql[i + 1] == quote {
        QuotedAdvance(sql, i, 2, quote, escapes);
        i := i + 2;
      } else {
        QuotedStop(sql[i..], quote, escapes);
        return i + 1, true;
      }
    }
    QuotedLast(sql[i..], quote, escapes);
    closed := false;
  }

  /** The piece at `i` has this kind and ends at `end`. */
  ghost predicate PieceIs(sql: string, i: nat, end: nat, kind: Kind) {
    i < end <= |sql| && First(ContextAt(sql, i), sql[i..]) == Piece(kind, sql[i..end])
  }

  lemma CommentIs(sql: string, i: nat, end: nat)
    requires i < |sql| && (Opens(sql[i..], '-', '-') || Opens(sql[i..], '/', '*'))
    requires end == i + 2 + if Opens(sql[i..], '-', '-') then LineEnd(sql[i + 2..]) else BlockEnd(sql[i + 2..], 1).0
    ensures PieceIs(sql, i, end, Comment)
  {
    hide LineEnd, BlockEnd, DollarDelimiter, DollarEnd, EscapeStringEnd, QuotedEnd, WordEnd, ContextAt;
    assert sql[i..][2..] == sql[i + 2..];
    assert sql[i..end] == sql[i..][..end - i];
  }

  /** The end of the line comment that starts at `start`. */
  method ScanLineComment(sql: string, start: nat) returns (i: nat)
    requires start < |sql| && Opens(sql[start..], '-', '-')
    ensures i <= |sql| && i == start + 2 + LineEnd(sql[start + 2..])
    ensures PieceIs(sql, start, i, Comment)
  {
    i := start;
    assert sql[start..][1..] == sql[start + 1..] && sql[start + 1..][1..] == sql[start + 2..];
    while i < |sql| && !IsNewline(sql[i])
      invariant start <= i <= |sql|
      invariant i + LineEnd(sql[i..]) == start + 2 + LineEnd(sql[start + 2..])
    {
      assert sql[i..][1..] == sql[i + 1..];
      i := i + 1;
    }
    CommentIs(sql, start, i);
  }

  lemma BlockAdvance(sql: string, i: nat, depth: nat)
    requires i < |sql| && depth > 0
    ensures
      var n := if Opens(sql[i..], '/', '*') || Opens(sql[i..], '*', '/') then 2 else 1;
      var d := if Opens(sql[i..], '/', '*') then depth + 1 else if Opens(sql[i..], '*', '/') then depth - 1 else depth;
      BlockEnd(sql[i..], depth).0 == n + BlockEnd(sql[i + n..], d).0
  {
    var n := if Opens(sql[i..], '/', '*') || Opens(sql[i..], '*', '/') then 2 else 1;
    assert sql[i..][n..] == sql[i + n..];
  }

  lemma BlockStop(s: string, depth: nat)
    requires s == "" || depth == 0
    ensures BlockEnd(s, depth).0 == 0
  {
  }

  /** The end of the block comment, nested ones included, that starts at `start`. */
  method ScanBlockComment(sql: string, start: nat) returns (i: nat)
    requires start < |sql| && Opens(sql[start..], '/', '*')
    ensures start < i <= |sql| && PieceIs(sql, start, i, Comment)
  {
    hide BlockEnd, PieceIs;
    var depth: nat := 1;
    i := start + 2;
    while i < |sql| && depth != 0
      invariant start + 2 <= i <= |sql|
      invariant i + BlockEnd(sql[i..], depth).0 == start + 2 + BlockEnd(sql[start + 2..], 1).0
    {
      BlockAdvance(sql, i, depth);
      if Opens(sql[i..], '/', '*') {
        depth, i := depth + 1, i + 2;
      } else if Opens(sql[i..], '*', '/') {
        depth, i := depth - 1, i + 2;
      } else {
        i := i + 1;
      }
    }
    BlockStop(sql[i..], depth);
    CommentIs(sql, start, i);
  }

  /** `Continuation` in positions of the whole text. */
  function ContinuationAt(sql: string, i: nat, newline: bool): Option<nat>
    requires i <= |sql|
  {
    match Continuation(sql[i..], newline) case Some(k) => Some(i + k) case None => None
  }

  lemma ContinuationAdvance(sql: string, i: nat, newline: bool)
    requires i < |sql|
    ensures IsSpace(sql[i]) ==> ContinuationAt(sql, i, newline) == ContinuationAt(sql, i + 1, newline || IsNewline(sql[i]))
    ensures !IsSpace(sql[i]) && !Opens(sql[i..], '-', '-') ==>
              ContinuationAt(sql, i, newline) == if newline then Some(i) else None
  {
    hide LineEnd;
    assert sql[i..][1..] == sql[i + 1..];
  }

  lemma ContinuationOverComment(sql: string, i: nat, j: nat, newline: bool)
    requires i < j <= |sql| && Opens(sql[i..], '-', '-') && j == i + 2 + LineEnd(sql[i + 2..])
    ensures ContinuationAt(sql, i, newline) == ContinuationAt(sql, j, newline)
  {
    hide LineEnd, Continuation;
    var x := sql[i..j];
    SplitAt(sql, i, j);
    assert sql[i..][2..] == sql[i + 2..] == x[2..] + sql[j..];
    ContinuationOfComment(x, sql[j..], newline);
  }

  lemma ContinuationAtEnd(sql: string, newline: bool)
    ensures ContinuationAt(sql, |sql|, newline) == if newline then Some(|sql|) else None
  {
  }

  /** The position after blanks and line comments that contain a line break. */
  method SkipStringContinuationWhitespace(sql: string, start: nat) returns (r: Option<nat>)
    requires start <= |sql|
    ensures r == ContinuationAt(sql, start, false)
  {
    hide ContinuationAt, Continuation;
    var i := start;
    var hasNewline := false;
    while i < |sql|
      invariant start <= i <= |sql|
      invariant ContinuationAt(sql, start, false) == ContinuationAt(sql, i, hasNewline)
    {
      ContinuationAdvance(sql, i, hasNewline);
      if IsSpace(sql[i]) {
        hasNewline := hasNewline || IsNewline(sql[i]);
        i := i + 1;
      } else if Opens(sql[i..], '-', '-') {
        var j := ScanLineComment(sql, i);
        ContinuationOverComment(sql, i, j, hasNewline);
        i := j;
      } else {
        r := if hasNewline then Some(i) else None;
        return;
      }
    }
    ContinuationAtEnd(sql, hasNewline);
    r := if hasNewline then Some(i) else None;
  }

  /** The delimiter of the dollar string at `start`, if there is one. */
  method DollarQuoteDelimiter(sql: string, start: nat) returns (r: Option<string>)
    requires start < |sql| && sql[start] == '$'
    ensures r == match DollarDelimiter(ContextAt(sql, start), sql[start..])
                 case Some(n) => Some(sql[start..start + n])
                 case None => None
  {
    hide Find;
    if start > 0 && IsIdentifierChar(sql[start - 1]) {
      return None;
    }
    assert sql[start..][1..] == sql[start + 1..];
    var end := Find(sql[start + 1..], "$");
    if end.None? {
      return None;
    }
    var tag := sql[start + 1..start + 1 + end.value];
    assert tag == sql[start..][1..end.value + 1];
    var bad := tag != "" && !IsTagStart(tag[0]);
    var k := 1;
    while k < |tag| && !bad
      invariant tag != "" ==> k <= |tag|
      invariant k >= 1
      invariant bad ==> !IsTag(tag)
      invariant !bad ==> (tag != "" ==> IsTagStart(tag[0])) && forall j :: 1 <= j < k && j < |tag| ==> IsTagChar(tag[j])
    {
      bad := !IsTagChar(tag[k]);
      k := k + 1;
    }
    r := if bad then None else Some(sql[start..start + 2 + end.value]);
  }

  /** The end of the dollar string at `start`, whose delimiter is given. */
  method ScanDollarString(sql: string, start: nat, delimiter: string) returns (i: nat)
    requires start < |sql| && sql[start] == '$'
    requires DollarDelimiter(ContextAt(sql, start), sql[start..]) == Some(|delimiter|)
    requires delimiter == sql[start..start + |delimiter|]
    ensures start < i <= |sql| && PieceIs(sql, start, i, Literal)
  {
    hide Find, DollarDelimiter, ContextAt;
    assert sql[start..][..|delimiter|] == delimiter;
    assert sql[start..][|delimiter|..] == sql[start + |delimiter|..];
    var end := Find(sql[start + |delimiter|..], delimiter);
    i := if end.None? then |sql| else start + |delimiter| + end.value + |delimiter|;
    assert i == start + DollarEnd(sql[start..], |delimiter|);
    DollarIs(sql, start, i);
  }

  lemma DollarIs(sql: string, i: nat, end: nat)
    requires i < |sql| && sql[i] == '$'
    requires var d := DollarDelimiter(ContextAt(sql, i), sql[i..]);
             d.Some? && end == i + DollarEnd(sql[i..], d.value)
    ensures PieceIs(sql, i, end, Literal)
  {
    hide LineEnd, BlockEnd, DollarDelimiter, DollarEnd, EscapeStringEnd, QuotedEnd, WordEnd, ContextAt;
    assert sql[i..end] == sql[i..][..end - i];
  }

  lemma StringIs(sql: string, i: nat, end: nat)
    requires i < |sql| && sql[i] == '\''
    requires end == i + 1 + if ContextAt(sql, i).escapeBefore then EscapeStringEnd(sql[i + 1..])
                            else QuotedEnd(sql[i + 1..], '\'', false).0
    ensures PieceIs(sql, i, end, Literal)
  {
    hide LineEnd, BlockEnd, DollarDelimiter, DollarEnd, EscapeStringEnd, QuotedEnd, WordEnd, ContextAt;
    assert sql[i..][1..] == sql[i + 1..];
    assert sql[i..end] == sql[i..][..end - i];
  }

  lemma QuotedIs(sql: string, i: nat, end: nat, closed: bool)
    requires i < |sql| && (sql[i] == '"' || sql[i] == '`')
    requires (end - i - 1, closed) == QuotedEnd(sql[i + 1..], sql[i], false)
    ensures PieceIs(sql, i, end, Quoted(sql[i], closed))
  {
    hide LineEnd, BlockEnd, DollarDelimiter, DollarEnd, EscapeStringEnd, QuotedEnd, WordEnd, ContextAt;
    assert sql[i..][1..] == sql[i + 1..];
    assert sql[i..end] == sql[i..][..end - i];
  }

  /** A `$` opens no dollar string at `i`, or there is no `$`. */
  ghost predicate NoDollar(sql: string, i: nat)
    requires i < |sql|
  {
    sql[i] == '$' ==> DollarDelimiter(ContextAt(sql, i), sql[i..]).None?
  }

  lemma WordIs(sql: string, i: nat, end: nat)
    requires i < |sql| && IsIdentifierChar(sql[i]) && NoDollar(sql, i)
    requires end == i + WordEnd(sql[i..])
    ensures PieceIs(sql, i, end, Word)
  {
    hide LineEnd, BlockEnd, DollarDelimiter, DollarEnd, EscapeStringEnd, QuotedEnd, ContextAt;
    assert sql[i..end] == sql[i..][..end - i];
  }

  lemma CharacterIs(sql: string, i: nat)
    requires i < |sql|
    ensures IsSpace(sql[i]) ==> PieceIs(sql, i, i + 1, Space)
    ensures
      && !IsSpace(sql[i]) && !Opens(sql[i..], '-', '-') && !Opens(sql[i..], '/', '*')
      && sql[i] !in {'\'', '"', '`'} && !IsIdentifierChar(sql[i]) ==>
        PieceIs(sql, i, i + 1, Symbol)
  {
    hide LineEnd, BlockEnd, DollarDelimiter, DollarEnd, EscapeStringEnd, QuotedEnd, WordEnd, ContextAt;
    assert sql[i..i + 1] == sql[i..][..1];
  }

  lemma SegmentAt(sql: string, from: nat, i: nat, k: Option<nat>)
    requires from <= i <= |sql| && QuotedEnd(sql[from..], '\'', true) == (i - from, true)
    requires k == ContinuationAt(sql, i, false)
    ensures
      from + EscapeStringEnd(sql[from..]) ==
      if k.Some? && i <= k.value < |sql| && sql[k.value] == '\'' then k.value + 1 + EscapeStringEnd(sql[k.value + 1..])
      else i
  {
    hide QuotedEnd, Continuation, EscapeStringEnd;
    SplitAt(sql, from, i);
    EscapeStringSegment(sql[from..i], sql[i..]);
    if k.Some? && i <= k.value < |sql| {
      assert sql[i..][k.value - i] == sql[k.value];
      assert sql[i..][k.value - i + 1..] == sql[k.value + 1..];
    }
  }

  /** The continuation loop of an E-string whose first segment, opened before `first`, ends at `end`. */
  method ScanContinuations(sql: string, first: nat, end: nat) returns (i: nat)
    requires first <= end <= |sql| && QuotedEnd(sql[first..], '\'', true) == (end - first, true)
    ensures first <= i <= |sql| && i == first + EscapeStringEnd(sql[first..])
  {
    hide QuotedEnd, Continuation, ContinuationAt, EscapeStringEnd;
    i := end;
    ghost var from := first;
    while true
      invariant first <= from <= i <= |sql|
      invariant QuotedEnd(sql[from..], '\'', true) == (i - from, true)
      invariant from + EscapeStringEnd(sql[from..]) == first + EscapeStringEnd(sql[first..])
      decreases |sql| - i
    {
      var continuation := SkipStringContinuationWhitespace(sql, i);
      SegmentAt(sql, from, i, continuation);
      ContinuationAhead(sql, i);
      if continuation.None? || continuation.value >= |sql| || sql[continuation.value] != '\'' {
        return;
      }
      var closed;
      i, closed := ScanQuotedToken(sql, continuation.value, '\'', true);
      from := continuation.value + 1;
      if !closed {
        EscapeStringUnclosed(sql[from..]);
        return;
      }
    }
  }

  lemma ContinuationAhead(sql: string, i: nat)
    requires i <= |sql|
    ensures ContinuationAt(sql, i, false).Some? ==> i <= ContinuationAt(sql, i, false).value <= |sql|
  {
    hide Continuation;
  }

  /** The end of the string literal at `start`, its continuation segments included. */
  method ScanString(sql: string, start: nat) returns (i: nat)
    requires start < |sql| && sql[start] == '\''
    ensures start < i <= |sql| && PieceIs(sql, start, i, Literal)
  {
    hide QuotedEnd, ContextAt, EscapeStringEnd, PieceIs;
    var escapes := start > 0 && IsEscapeLetter(sql[start - 1]) && (start == 1 || !IsIdentifierChar(sql[start - 2]));
    var closed;
    i, closed := ScanQuotedToken(sql, start, '\'', escapes);
    if escapes {
      EscapeStringUnclosed(sql[start + 1..]);
      if closed {
        i := ScanContinuations(sql, start + 1, i);
      }
    }
    StringIs(sql, start, i);
  }

  /** The end of the word that starts at `start`. */
  method ScanWord(sql: string, start: nat) returns (i: nat)
    requires start < |sql| && IsIdentifierChar(sql[start]) && NoDollar(sql, start)
    ensures start < i <= |sql| && PieceIs(sql, start, i, Word)
  {
    hide NoDollar, PieceIs;
    i := start;
    while i < |sql| && IsIdentifierChar(sql[i])
      invariant start <= i <= |sql|
      invariant i + WordEnd(sql[i..]) == start + WordEnd(sql[start..])
    {
      assert sql[i..][1..] == sql[i + 1..];
      i := i + 1;
    }
    WordIs(sql, start, i);
  }

  // ---------------------------------------------------------------- the backtick translator

  /** A piece of `sql` and what the rest of the text, lexed or translated, adds to it. */
  lemma PieceAt(sql: string, i: nat, end: nat, kind: Kind)
    requires PieceIs(sql, i, end, kind)
    ensures
      var p := Piece(kind, sql[i..end]);
      && Lex(ContextAt(sql, i), sql[i..]) == [p] + Lex(ContextAt(sql, end), sql[end..])
      && WellQuoted(p)
      && Debacktick(ContextAt(sql, i), sql[i..]) == Translate(p).text + Debacktick(ContextAt(sql, end), sql[end..])
  {
    hide First, Lex, Debacktick, ContextAt, ContextAfter;
    var p, c', r := Cut(ContextAt(sql, i), sql[i..]);
    assert sql[i..][end - i..] == sql[end..];
    ContextAdvance(sql, i, end - i);
  }

  /** Inside a word no `$` opens a dollar string, so a word may be walked one character at a time. */
  lemma WordStep(sql: string, i: nat)
    requires i < |sql| && IsIdentifierChar(sql[i]) && NoDollar(sql, i)
    ensures Debacktick(ContextAt(sql, i), sql[i..]) ==
            sql[i..i + 1] + Debacktick(ContextAt(sql, i + 1), sql[i + 1..])
  {
    hide First, Lex, Debacktick, DollarDelimiter, ContextAfter, PieceIs, ContextAt;
    var end := i + WordEnd(sql[i..]);
    WordIs(sql, i, end);
    PieceAt(sql, i, end, Word);
    if end > i + 1 {
      NoDollarInWord(sql, i + 1);
      assert sql[i..][1] == sql[i + 1];
      assert sql[i..][1..] == sql[i + 1..];
      WordIs(sql, i + 1, end);
      PieceAt(sql, i + 1, end, Word);
      SliceSplit(sql, i, i + 1, end);
    }
  }

  lemma NoDollarInWord(sql: string, i: nat)
    requires 0 < i < |sql| && IsIdentifierChar(sql[i - 1])
    ensures NoDollar(sql, i)
  {
    hide Find;
  }

  lemma NoBacktickNoChange(sql: string)
    requires '`' !in sql
    ensures Debacktick(START, sql) == sql
  {
    hide First, Debacktick;
    PrefixKept(START, sql, |sql|);
    assert Debacktick(START, sql)[..|sql|] == Debacktick(START, sql);
  }

  lemma AtStart(sql: string)
    ensures ContextAt(sql, 0) == START && sql[0..] == sql
  {
  }

  lemma AtEnd(sql: string)
    ensures Lex(ContextAt(sql, |sql|), sql[|sql|..]) == [] && Debacktick(ContextAt(sql, |sql|), sql[|sql|..]) == ""
  {
  }

  /** `_debacktick_identifiers`: words, blanks and symbols pass one character at a time. */
  method DebacktickIdentifiers(sql: string) returns (result: string)
    ensures result == Debacktick(START, sql)
  {
    hide First, Lex, Debacktick, ContextAt, ContextAfter, LineEnd, PieceIs;
    if '`' !in sql {
      NoBacktickNoChange(sql);
      return sql;
    }
    var parts: seq<string> := [];
    var i := 0;
    AtStart(sql);
    while i < |sql|
      invariant i <= |sql|
      invariant Concat(parts) + Debacktick(ContextAt(sql, i), sql[i..]) == Debacktick(START, sql)
    {
      var part;
      i, part := DebacktickToken(sql, i);
      ConcatAppend(parts, [part]);
      parts := parts + [part];
    }
    AtEnd(sql);
    result := Concat(parts);
  }

  /** The body of the translator's loop. */
  method DebacktickToken(sql: string, start: nat) returns (i: nat, part: string)
    requires start < |sql|
    ensures start < i <= |sql|
    ensures Debacktick(ContextAt(sql, start), sql[start..]) == part + Debacktick(ContextAt(sql, i), sql[i..])
  {
    hide First, Lex, Debacktick, ContextAt, ContextAfter, DollarDelimiter, QuotedEnd, LineEnd, PieceIs;
    var dollarQuote := None;
    if sql[start] == '$' {
      dollarQuote := DollarQuoteDelimiter(sql, start);
    }
    if Opens(sql[start..], '-', '-') {
      i := ScanLineComment(sql, start);
      part := sql[start..i];
      PieceAt(sql, start, i, Comment);
    } else if Opens(sql[start..], '/', '*') {
      i := ScanBlockComment(sql, start);
      part := sql[start..i];
      PieceAt(sql, start, i, Comment);
    } else if dollarQuote.Some? {
      i := ScanDollarString(sql, start, dollarQuote.value);
      part := sql[start..i];
      PieceAt(sql, start, i, Literal);
    } else if sql[start] == '\'' {
      i := ScanString(sql, start);
      part := sql[start..i];
      PieceAt(sql, start, i, Literal);
    } else if sql[start] == '"' || sql[start] == '`' {
      var closed;
      i, closed := ScanQuotedToken(sql, start, sql[start], false);
      QuotedIs(sql, start, i, closed);
      PieceAt(sql, start, i, Quoted(sql[start], closed));
      if sql[start] == '`' && closed {
        InnerSlice(sql, start, i);
        part := "\"" + Double(Undouble(sql[start + 1..i - 1], '`'), '"') + "\"";
      } else {
        part := sql[start..i];
      }
    } else {
      i := start + 1;
      part := sql[start..i];
      if IsIdentifierChar(sql[start]) {
        WordStep(sql, start);
      } else {
        CharacterIs(sql, start);
        PieceAt(sql, start, i, if IsSpace(sql[start]) then Space else Symbol);
      }
    }
  }
}
