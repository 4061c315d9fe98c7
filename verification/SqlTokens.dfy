/** The two tokenizers of the statement service and their agreement. */
module SqlTokens {
  import opened Text
  import opened SqlLexer
  import opened Backticks
  import opened SqlScanners

  // ---------------------------------------------------------------- _sql_token_spans

  datatype SpanKind = WordSpan | PunctuationSpan | StringSpan | IdentifierSpan | CommentSpan

  datatype SpanToken = SpanToken(keyword: Option<string>, start: nat, end: nat, kind: SpanKind)

  /** The span token of a piece, if the pass emits one. */
  function SpanOf(p: Piece, at: nat, includeComments: bool): Option<SpanToken> {
    var end := at + |p.text|;
    match p.kind
    case Space => None
    case Comment => if includeComments then Some(SpanToken(None, at, end, CommentSpan)) else None
    case Literal => Some(SpanToken(None, at, end, StringSpan))
    case Quoted(_, _) => Some(SpanToken(None, at, end, IdentifierSpan))
    case Word => Some(SpanToken(Some(Upper(p.text)), at, end, WordSpan))
    case Symbol => Some(SpanToken(Some(p.text), at, end, PunctuationSpan))
  }

  function Listed<T>(token: Option<T>): seq<T> {
    match token case Some(t) => [t] case None => []
  }

  function SpanView(pieces: seq<Piece>, at: nat, includeComments: bool): seq<SpanToken> {
    if pieces == [] then []
    else
      Listed(SpanOf(pieces[0], at, includeComments))
      + SpanView(pieces[1..], at + |pieces[0].text|, includeComments)
  }

  // ---------------------------------------------------------------- the rewriter's tokenizer

  datatype TokenKind = WordToken | QuotedIdentifier | LiteralToken | SymbolToken

  datatype SqlToken = SqlToken(start: nat, end: nat, kind: TokenKind, value: string)

  function TokenOf(p: Piece, at: nat): Option<SqlToken>
    requires WellQuoted(p)
  {
    var end := at + |p.text|;
    match p.kind
    case Space => None
    case Comment => None
    case Literal => Some(SqlToken(at, end, LiteralToken, p.text))
    case Quoted(_, _) => Some(SqlToken(at, end, QuotedIdentifier, Decode(p)))
    case Word => Some(SqlToken(at, end, WordToken, p.text))
    case Symbol => Some(SqlToken(at, end, SymbolToken, p.text))
  }

  function TokenView(pieces: seq<Piece>, at: nat): seq<SqlToken>
    requires forall p | p in pieces :: WellQuoted(p)
  {
    if pieces == [] then []
    else Listed(TokenOf(pieces[0], at)) + TokenView(pieces[1..], at + |pieces[0].text|)
  }

  // ---------------------------------------------------------------- agreement

  /** The same token in both vocabularies. */
  predicate SameToken(s: SpanToken, t: SqlToken) {
    && s.start == t.start && s.end == t.end
    && match t.kind
       case WordToken => s.kind == WordSpan && s.keyword == Some(Upper(t.value))
       case QuotedIdentifier => s.kind == IdentifierSpan && s.keyword == None
       case LiteralToken => s.kind == StringSpan && s.keyword == None
       case SymbolToken => s.kind == PunctuationSpan && s.keyword == Some(t.value)
  }

  lemma {:induction false} ViewsAgree(pieces: seq<Piece>, at: nat)
    requires forall p | p in pieces :: WellQuoted(p)
    ensures |SpanView(pieces, at, false)| == |TokenView(pieces, at)|
    ensures forall k | 0 <= k < |TokenView(pieces, at)| ::
              SameToken(SpanView(pieces, at, false)[k], TokenView(pieces, at)[k])
  {
    if pieces != [] {
      ViewsAgree(pieces[1..], at + |pieces[0].text|);
    }
  }

  /** Both tokenizers cut every text alike. */
  lemma TokenizersAgree(sql: string)
    ensures forall p | p in Lex(START, sql) :: WellQuoted(p)
    ensures
      var spans, tokens := SpanView(Lex(START, sql), 0, false), TokenView(Lex(START, sql), 0);
      && |spans| == |tokens|
      && forall k | 0 <= k < |tokens| :: SameToken(spans[k], tokens[k])
  {
    LexIsWellQuoted(START, sql);
    ViewsAgree(Lex(START, sql), 0);
  }

  /** The translator cuts where the tokenizers cut: its output is the pieces, translated one by one. */
  lemma {:induction false} DebacktickIsPiecewise(c: Context, sql: string)
    ensures forall p | p in Lex(c, sql) :: WellQuoted(p)
    ensures Debacktick(c, sql) == Texts(TranslateAll(Lex(c, sql)))
    decreases |sql|
  {
    LexIsWellQuoted(c, sql);
    if sql != "" {
      hide First, Debacktick, Lex;
      var p, c', r := Cut(c, sql);
      DebacktickIsPiecewise(c', r);
      assert Lex(c, sql)[1..] == Lex(c', r);
    }
  }

  // ---------------------------------------------------------------- tokens of a text

  lemma SpanViewCons(p: Piece, pieces: seq<Piece>, at: nat, includeComments: bool)
    ensures SpanView([p] + pieces, at, includeComments) ==
            Listed(SpanOf(p, at, includeComments)) + SpanView(pieces, at + |p.text|, includeComments)
  {
    assert ([p] + pieces)[1..] == pieces;
  }

  lemma TokenViewCons(p: Piece, pieces: seq<Piece>, at: nat)
    requires WellQuoted(p) && forall q | q in pieces :: WellQuoted(q)
    ensures TokenView([p] + pieces, at) == Listed(TokenOf(p, at)) + TokenView(pieces, at + |p.text|)
  {
    assert ([p] + pieces)[1..] == pieces;
  }

  ghost function SpansFrom(sql: string, i: nat, includeComments: bool): seq<SpanToken>
    requires i <= |sql|
  {
    SpanView(Lex(ContextAt(sql, i), sql[i..]), i, includeComments)
  }

  ghost function TokensFrom(sql: string, i: nat): seq<SqlToken>
    requires i <= |sql|
  {
    LexIsWellQuoted(ContextAt(sql, i), sql[i..]);
    TokenView(Lex(ContextAt(sql, i), sql[i..]), i)
  }

  lemma PieceNotEmpty(sql: string, i: nat, end: nat, kind: Kind)
    requires PieceIs(sql, i, end, kind)
    ensures i < end <= |sql| && WellQuoted(Piece(kind, sql[i..end]))
  {
    hide First, Lex, Debacktick;
    PieceAt(sql, i, end, kind);
  }

  lemma SpanAdvance(sql: string, i: nat, end: nat, kind: Kind, includeComments: bool)
    requires i < end <= |sql| && PieceIs(sql, i, end, kind)
    ensures SpansFrom(sql, i, includeComments) ==
            Listed(SpanOf(Piece(kind, sql[i..end]), i, includeComments)) + SpansFrom(sql, end, includeComments)
  {
    hide First, Lex, Debacktick, ContextAt, ContextAfter, PieceIs, SpanOf, SpanView;
    PieceAt(sql, i, end, kind);
    SpanViewCons(Piece(kind, sql[i..end]), Lex(ContextAt(sql, end), sql[end..]), i, includeComments);
  }

  lemma TokenAdvance(sql: string, i: nat, end: nat, kind: Kind)
    requires i < end <= |sql| && PieceIs(sql, i, end, kind)
    ensures WellQuoted(Piece(kind, sql[i..end]))
    ensures TokensFrom(sql, i) == Listed(TokenOf(Piece(kind, sql[i..end]), i)) + TokensFrom(sql, end)
  {
    hide First, Lex, Debacktick, ContextAt, ContextAfter, PieceIs, TokenOf, TokenView;
    PieceAt(sql, i, end, kind);
    LexIsWellQuoted(ContextAt(sql, end), sql[end..]);
    TokenViewCons(Piece(kind, sql[i..end]), Lex(ContextAt(sql, end), sql[end..]), i);
  }

  lemma ViewsStart(sql: string, includeComments: bool)
    ensures forall p | p in Lex(START, sql) :: WellQuoted(p)
    ensures SpansFrom(sql, 0, includeComments) == SpanView(Lex(START, sql), 0, includeComments)
    ensures TokensFrom(sql, 0) == TokenView(Lex(START, sql), 0)
    ensures SpansFrom(sql, |sql|, includeComments) == []
    ensures TokensFrom(sql, |sql|) == []
  {
    hide First;
    AtStart(sql);
    AtEnd(sql);
    LexIsWellQuoted(START, sql);
  }

  /** `_sql_token_spans`. */
  method SqlTokenSpans(sql: string, includeComments: bool) returns (tokens: seq<SpanToken>)
    ensures tokens == SpanView(Lex(START, sql), 0, includeComments)
  {
    hide SpansFrom, TokensFrom;
    tokens := [];
    var i := 0;
    ViewsStart(sql, includeComments);
    while i < |sql|
      invariant i <= |sql|
      invariant tokens + SpansFrom(sql, i, includeComments) == SpansFrom(sql, 0, includeComments)
    {
      var emitted;
      i, emitted := SpanTokenAt(sql, i, includeComments);
      tokens := tokens + emitted;
    }
  }

  /** The body of the span pass's loop. */
  method SpanTokenAt(sql: string, start: nat, includeComments: bool) returns (i: nat, emitted: seq<SpanToken>)
    requires start < |sql|
    ensures start < i <= |sql|
    ensures SpansFrom(sql, start, includeComments) == emitted + SpansFrom(sql, i, includeComments)
  {
    hide First, ContextAt, LineEnd, PieceIs, DollarDelimiter, QuotedEnd, SpansFrom;
    ghost var kind := Space;
    emitted := [];
    var delimiter := None;
    if sql[start] == '$' {
      delimiter := DollarQuoteDelimiter(sql, start);
    }
    if IsSpace(sql[start]) {
      CharacterIs(sql, start);
      i := start + 1;
    } else if Opens(sql[start..], '-', '-') {
      i := ScanLineComment(sql, start);
      kind := Comment;
      emitted := if includeComments then [SpanToken(None, start, i, CommentSpan)] else [];
    } else if Opens(sql[start..], '/', '*') {
      i := ScanBlockComment(sql, start);
      kind := Comment;
      emitted := if includeComments then [SpanToken(None, start, i, CommentSpan)] else [];
    } else if delimiter.Some? {
      i := ScanDollarString(sql, start, delimiter.value);
      kind := Literal;
      emitted := [SpanToken(None, start, i, StringSpan)];
    } else if sql[start] == '\'' {
      i := ScanString(sql, start);
      kind := Literal;
      emitted := [SpanToken(None, start, i, StringSpan)];
    } else if sql[start] == '"' || sql[start] == '`' {
      var closed;
      i, closed := ScanQuotedToken(sql, start, sql[start], false);
      kind := Quoted(sql[start], closed);
      QuotedIs(sql, start, i, closed);
      PieceNotEmpty(sql, start, i, kind);
      emitted := [SpanToken(None, start, i, IdentifierSpan)];
    } else if IsIdentifierChar(sql[start]) {
      i := ScanWord(sql, start);
      kind := Word;
      emitted := [SpanToken(Some(Upper(sql[start..i])), start, i, WordSpan)];
    } else {
      CharacterIs(sql, start);
      i := start + 1;
      kind := Symbol;
      emitted := [SpanToken(Some(sql[start..i]), start, i, PunctuationSpan)];
    }
    SpanAdvance(sql, start, i, kind, includeComments);
  }

  /** The tokenizer at the head of `_rewrite_sql_for_duckdb`. */
  method RewriterTokens(sql: string) returns (tokens: seq<SqlToken>)
    ensures forall p | p in Lex(START, sql) :: WellQuoted(p)
    ensures tokens == TokenView(Lex(START, sql), 0)
  {
    hide TokensFrom, SpansFrom;
    tokens := [];
    var i := 0;
    ViewsStart(sql, false);
    while i < |sql|
      invariant i <= |sql|
      invariant tokens + TokensFrom(sql, i) == TokensFrom(sql, 0)
    {
      var emitted;
      i, emitted := RewriterTokenAt(sql, i);
      tokens := tokens + emitted;
    }
  }

  /** The body of the rewriter's tokenizing loop. */
  method RewriterTokenAt(sql: string, start: nat) returns (i: nat, emitted: seq<SqlToken>)
    requires start < |sql|
    ensures start < i <= |sql|
    ensures TokensFrom(sql, start) == emitted + TokensFrom(sql, i)
  {
    hide First, ContextAt, LineEnd, PieceIs, DollarDelimiter, QuotedEnd, TokensFrom;
    ghost var kind := Space;
    emitted := [];
    var dollarQuote := None;
    if sql[start] == '$' {
      dollarQuote := DollarQuoteDelimiter(sql, start);
    }
    if IsSpace(sql[start]) {
      CharacterIs(sql, start);
      i := start + 1;
    } else if Opens(sql[start..], '-', '-') {
      i := ScanLineComment(sql, start);
      kind := Comment;
    } else if Opens(sql[start..], '/', '*') {
      i := ScanBlockComment(sql, start);
      kind := Comment;
    } else if sql[start] == '\'' {
      i := ScanString(sql, start);
      kind := Literal;
      emitted := [SqlToken(start, i, LiteralToken, sql[start..i])];
    } else if dollarQuote.Some? {
      i := ScanDollarString(sql, start, dollarQuote.value);
      kind := Literal;
      emitted := [SqlToken(start, i, LiteralToken, sql[start..i])];
    } else if sql[start] == '"' || sql[start] == '`' {
      var closed;
      i, closed := ScanQuotedToken(sql, start, sql[start], false);
      kind := Quoted(sql[start], closed);
      QuotedIs(sql, start, i, closed);
      PieceNotEmpty(sql, start, i, kind);
      var raw := if closed then sql[start + 1..i - 1] else sql[start + 1..i];
      RawName(sql, start, i, closed);
      emitted := [SqlToken(start, i, QuotedIdentifier, Undouble(raw, sql[start]))];
    } else if IsIdentifierChar(sql[start]) {
      i := ScanWord(sql, start);
      kind := Word;
      emitted := [SqlToken(start, i, WordToken, sql[start..i])];
    } else {
      CharacterIs(sql, start);
      i := start + 1;
      kind := Symbol;
      emitted := [SqlToken(start, i, SymbolToken, sql[start..i])];
    }
    TokenAdvance(sql, start, i, kind);
  }

  /** The name of a quoted token in positions of the whole text. */
  lemma RawName(sql: string, start: nat, end: nat, closed: bool)
    requires start < end <= |sql| && (closed ==> start + 2 <= end)
    ensures var p := Piece(Quoted(sql[start], closed), sql[start..end]);
            Decode(p) == Undouble(if closed then sql[start + 1..end - 1] else sql[start + 1..end], sql[start])
  {
    if closed {
      InnerSlice(sql, start, end);
    } else {
      assert sql[start..end][1..] == sql[start + 1..end];
    }
  }
}
