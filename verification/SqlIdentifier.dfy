/** The UI's identifier quoting, read back by the server's lexer and rewriter. */
module SqlIdentifier {
  import opened Text
  import opened SqlLexer
  import opened Backticks
  import opened SqlTokens
  import opened Rewriter
  import opened QueryGrammar
  import opened RewriteGrammar

  // ---------------------------------------------------------------- the printer

  predicate IsBareStart(c: char) { IsAsciiAlpha(c) || c == '_' }

  predicate IsBareChar(c: char) { IsAsciiAlnum(c) || c == '_' }

  predicate IsBareIdentifier(name: string) {
    name != "" && IsBareStart(name[0]) && forall k | 0 <= k < |name| :: IsBareChar(name[k])
  }

  const RESERVED: set<string> := {
    "all", "and", "any", "array", "as", "asc", "between", "by", "case", "cast", "column", "create",
    "cross", "current", "default", "delete", "desc", "distinct", "drop", "else", "end", "except",
    "exists", "false", "for", "from", "full", "group", "having", "in", "inner", "insert", "intersect",
    "into", "is", "join", "left", "like", "limit", "not", "null", "offset", "on", "or", "order",
    "outer", "primary", "references", "right", "select", "set", "table", "then", "true", "union",
    "unique", "update", "using", "values", "when", "where", "window", "with"
  }

  /** `toLowerCase()` of an ASCII name. */
  function AsciiLower(name: string): string {
    if name == "" then ""
    else [if 'A' <= name[0] <= 'Z' then ((name[0] as int + 32) as char) else name[0]] + AsciiLower(name[1..])
  }

  function QuoteIdentifier(name: string): string {
    if IsBareIdentifier(name) && AsciiLower(name) !in RESERVED then name
    else "\"" + Double(name, '"') + "\""
  }

  /** The parts of a reference that are present and not empty, quoted. */
  function QuotedParts(parts: seq<Option<string>>): seq<string> {
    if parts == [] then []
    else (if parts[0].Some? && parts[0].value != "" then [QuoteIdentifier(parts[0].value)] else []) + QuotedParts(parts[1..])
  }

  function QualifiedName(parts: seq<Option<string>>): string { Text.Join(QuotedParts(parts), ".") }

  function TableRef(catalog: string, schema: string, table: string): string {
    QualifiedName([Some(catalog), Some(schema), Some(table)])
  }

  function PreviewStatement(catalog: string, schema: string, table: string, limit: nat): string {
    "SELECT * FROM " + TableRef(catalog, schema, table) + " LIMIT " + Digits(limit) + ";"
  }

  // ---------------------------------------------------------------- lexing what is printed

  lemma {:induction false} WordEndWhole(w: string, rest: string)
    requires forall k | 0 <= k < |w| :: IsIdentifierChar(w[k])
    requires rest == "" || !IsIdentifierChar(rest[0])
    ensures WordEnd(w + rest) == |w|
  {
    if w == "" {
      assert w + rest == rest;
    } else {
      assert (w + rest)[1..] == w[1..] + rest;
      WordEndWhole(w[1..], rest);
    }
  }

  lemma LexWord(c: Context, w: string, rest: string)
    requires w != "" && w[0] != '$' && forall k | 0 <= k < |w| :: IsIdentifierChar(w[k])
    requires rest == "" || !IsIdentifierChar(rest[0])
    ensures First(c, w + rest) == Piece(Word, w)
    ensures Lex(c, w + rest) == [Piece(Word, w)] + Lex(ContextAfter(c, w), rest)
  {
    hide LineEnd, BlockEnd, DollarDelimiter, DollarEnd, EscapeStringEnd, QuotedEnd, WordEnd, Lex, ContextAfter;
    WordEndWhole(w, rest);
    assert (w + rest)[..|w|] == w;
    LexCut(c, w, rest);
  }

  lemma LexSpace(c: Context, rest: string)
    ensures Lex(c, " " + rest) == [Piece(Space, " ")] + Lex(START, rest)
  {
    hide LineEnd, BlockEnd, DollarDelimiter, DollarEnd, EscapeStringEnd, QuotedEnd, WordEnd, Lex;
    LexCut(c, " ", rest);
  }

  /** The signs that occur here. */
  predicate IsSign(x: char) {
    x == '.' || x == '*' || x == ';' || x == '(' || x == ')' || x == '[' || x == ']' || x == ',' || x == '='
  }

  lemma LexSymbol(c: Context, x: char, rest: string)
    requires IsSign(x)
    ensures Lex(c, [x] + rest) == [Piece(Symbol, [x])] + Lex(START, rest)
  {
    hide LineEnd, BlockEnd, DollarDelimiter, DollarEnd, EscapeStringEnd, QuotedEnd, WordEnd, Lex;
    LexCut(c, [x], rest);
  }

  /** The piece a printed part is read as. */
  function PartPiece(name: string): Piece {
    var text := QuoteIdentifier(name);
    if IsBareIdentifier(name) && text == name then Piece(Word, text) else Piece(Quoted('"', true), text)
  }

  predicate EndsPart(rest: string) { rest == "" || (!IsIdentifierChar(rest[0]) && rest[0] != '"') }

  lemma BareIsWord(name: string)
    requires IsBareIdentifier(name)
    ensures name[0] != '$' && name[0] != '"' && forall k | 0 <= k < |name| :: IsIdentifierChar(name[k])
  {
  }

  /** Every printed name is read back as one token that stands for the name. */
  lemma PartLexes(c: Context, name: string, rest: string)
    requires EndsPart(rest)
    ensures
      var p := PartPiece(name);
      && WellQuoted(p) && p.text == QuoteIdentifier(name) && p.text != ""
      && Lex(c, QuoteIdentifier(name) + rest) == [p] + Lex(ContextAfter(c, p.text), rest)
      && forall at: nat :: TokenOf(p, at).Some? && TokenOf(p, at).value.value == name
           && TokenOf(p, at).value.kind in {WordToken, QuotedIdentifier}
           && TokenOf(p, at).value.start == at && TokenOf(p, at).value.end == at + |p.text|
  {
    hide First, Lex, AsciiLower, ContextAfter;
    if IsBareIdentifier(name) {
      BareIsWord(name);
    }
    if IsBareIdentifier(name) && QuoteIdentifier(name) == name {
      LexWord(c, name, rest);
    } else {
      var text := "\"" + Double(name, '"') + "\"";
      assert text == ['"'] + Double(name, '"') + ['"'];
      QuotedNameLexes(c, name, '"', rest);
      ContextAfterQuote(c, text);
    }
  }

  /** A dotted reference prints its three quoted parts with dots between. */
  lemma TableRefParts(catalog: string, schema: string, table: string)
    requires catalog != "" && schema != "" && table != ""
    ensures TableRef(catalog, schema, table) ==
            QuoteIdentifier(catalog) + "." + QuoteIdentifier(schema) + "." + QuoteIdentifier(table)
  {
    hide QuoteIdentifier;
    var parts := [Some(catalog), Some(schema), Some(table)];
    assert parts[1..] == [Some(schema), Some(table)] && parts[1..][1..] == [Some(table)] && [Some(table)][1..] == [];
    assert QuotedParts([Some(table)]) == [QuoteIdentifier(table)];
    assert QuotedParts(parts[1..]) == [QuoteIdentifier(schema), QuoteIdentifier(table)];
    var q := [QuoteIdentifier(catalog), QuoteIdentifier(schema), QuoteIdentifier(table)];
    assert QuotedParts(parts) == q;
    assert q[1..] == [QuoteIdentifier(schema), QuoteIdentifier(table)];
    assert q[1..][1..] == [QuoteIdentifier(table)];
    assert Text.Join(q[1..], ".") == QuoteIdentifier(schema) + "." + QuoteIdentifier(table);
  }

  // ---------------------------------------------------------------- the tokens of a preview statement

  ghost function TokensIn(c: Context, s: string, at: nat): seq<SqlToken> {
    LexIsWellQuoted(c, s);
    TokenView(Lex(c, s), at)
  }

  /** The text holds no closed backtick name. */
  ghost predicate NoTicks(c: Context, s: string) { forall p | p in Lex(c, s) :: !IsClosedBacktick(p) }

  lemma {:induction false} NoTicksUnchanged(c: Context, s: string)
    requires NoTicks(c, s)
    ensures Debacktick(c, s) == s
    decreases |s|
  {
    if s != "" {
      hide First, Lex, Debacktick;
      var p, c', r := Cut(c, s);
      assert p in Lex(c, s) && forall q | q in Lex(c', r) :: q in Lex(c, s);
      NoTicksUnchanged(c', r);
    }
  }

  lemma TokensCons(c: Context, s: string, at: nat, p: Piece, c': Context, rest: string)
    requires Lex(c, s) == [p] + Lex(c', rest) && WellQuoted(p)
    ensures TokensIn(c, s, at) == Listed(TokenOf(p, at)) + TokensIn(c', rest, at + |p.text|)
    ensures NoTicks(c', rest) && !IsClosedBacktick(p) ==> NoTicks(c, s)
  {
    hide First, Lex, TokenOf;
    LexIsWellQuoted(c', rest);
    TokenViewCons(p, Lex(c', rest), at);
  }

  lemma WordTokens(c: Context, w: string, rest: string, at: nat)
    requires w != "" && w[0] != '$' && forall k | 0 <= k < |w| :: IsIdentifierChar(w[k])
    requires rest == "" || !IsIdentifierChar(rest[0])
    ensures TokensIn(c, w + rest, at) ==
            [SqlToken(at, at + |w|, WordToken, w)] + TokensIn(ContextAfter(c, w), rest, at + |w|)
    ensures NoTicks(ContextAfter(c, w), rest) ==> NoTicks(c, w + rest)
  {
    hide First, Lex, ContextAfter;
    LexWord(c, w, rest);
    TokensCons(c, w + rest, at, Piece(Word, w), ContextAfter(c, w), rest);
  }

  lemma SpaceTokens(c: Context, rest: string, at: nat)
    ensures TokensIn(c, " " + rest, at) == TokensIn(START, rest, at + 1)
    ensures NoTicks(START, rest) ==> NoTicks(c, " " + rest)
  {
    hide First, Lex;
    LexSpace(c, rest);
    TokensCons(c, " " + rest, at, Piece(Space, " "), START, rest);
  }

  lemma SymbolTokens(c: Context, x: char, rest: string, at: nat)
    requires IsSign(x)
    ensures TokensIn(c, [x] + rest, at) == [SqlToken(at, at + 1, SymbolToken, [x])] + TokensIn(START, rest, at + 1)
    ensures NoTicks(START, rest) ==> NoTicks(c, [x] + rest)
  {
    hide First, Lex;
    LexSymbol(c, x, rest);
    TokensCons(c, [x] + rest, at, Piece(Symbol, [x]), START, rest);
  }

  function PartToken(name: string, at: nat): (t: SqlToken)
    ensures t.value == name && t.start == at && t.end == at + |QuoteIdentifier(name)| && t.start < t.end
    ensures t.kind == WordToken || t.kind == QuotedIdentifier
  {
    PartLexes(START, name, "");
    TokenOf(PartPiece(name), at).value
  }

  lemma PartIsNoBacktick(name: string)
    ensures !IsClosedBacktick(PartPiece(name))
  {
  }

  lemma PartTokens(c: Context, name: string, rest: string, at: nat)
    requires EndsPart(rest)
    ensures TokensIn(c, QuoteIdentifier(name) + rest, at) ==
            [PartToken(name, at)]
            + TokensIn(ContextAfter(c, QuoteIdentifier(name)), rest, at + |QuoteIdentifier(name)|)
    ensures NoTicks(ContextAfter(c, QuoteIdentifier(name)), rest) ==> NoTicks(c, QuoteIdentifier(name) + rest)
  {
    hide First, Lex, QuoteIdentifier, ContextAfter, PartPiece, TokenOf;
    assert !IsClosedBacktick(PartPiece(name)) by { PartIsNoBacktick(name); }
    PartLexes(START, name, "");
    PartLexes(c, name, rest);
    TokensCons(c, QuoteIdentifier(name) + rest, at, PartPiece(name), ContextAfter(c, QuoteIdentifier(name)), rest);
  }

  lemma NoTokens(c: Context, at: nat)
    ensures TokensIn(c, "", at) == [] && NoTicks(c, "")
  {
  }

  function SuffixList(digits: string, at: nat): seq<SqlToken> {
    [SqlToken(at + 1, at + 6, WordToken, "LIMIT"),
     SqlToken(at + 7, at + 7 + |digits|, WordToken, digits),
     SqlToken(at + 7 + |digits|, at + 8 + |digits|, SymbolToken, ";")]
  }

  lemma SuffixTokens(c: Context, limit: nat, at: nat)
    ensures TokensIn(c, " LIMIT " + Digits(limit) + ";", at) == SuffixList(Digits(limit), at)
    ensures NoTicks(c, " LIMIT " + Digits(limit) + ";")
  {
    hide First, Lex, ContextAfter, TokensIn, Digits, NoTicks;
    var d := Digits(limit);
    var s1 := " " + (d + ";");
    assert " LIMIT " + d + ";" == " " + ("LIMIT" + s1);
    SpaceTokens(c, "LIMIT" + s1, at);
    WordTokens(START, "LIMIT", s1, at + 1);
    SpaceTokens(ContextAfter(START, "LIMIT"), d + ";", at + 6);
    WordTokens(START, d, ";", at + 7);
    assert [';'] + "" == ";";
    SymbolTokens(ContextAfter(START, d), ';', "", at + 7 + |d|);
    NoTokens(START, at + 8 + |d|);
  }

  function RefList(catalog: string, schema: string, table: string, at: nat): seq<SqlToken> {
    var a := at + |QuoteIdentifier(catalog)|;
    var b := a + 1 + |QuoteIdentifier(schema)|;
    [PartToken(catalog, at), SqlToken(a, a + 1, SymbolToken, "."), PartToken(schema, a + 1),
     SqlToken(b, b + 1, SymbolToken, "."), PartToken(table, b + 1)]
  }

  /** `tableRef` is read back as the three names joined by touching dots. */
  lemma RefTokens(c: Context, catalog: string, schema: string, table: string, rest: string, at: nat)
    returns (c': Context)
    requires catalog != "" && schema != "" && table != "" && EndsPart(rest)
    ensures
      var ref := TableRef(catalog, schema, table);
      && TokensIn(c, ref + rest, at) == RefList(catalog, schema, table, at) + TokensIn(c', rest, at + |ref|)
      && |ref| == |QuoteIdentifier(catalog)| + |QuoteIdentifier(schema)| + |QuoteIdentifier(table)| + 2
      && (NoTicks(c', rest) ==> NoTicks(c, ref + rest))
  {
    hide First, Lex, ContextAfter, TokensIn, QuoteIdentifier, PartToken, TableRef, NoTicks;
    var ref := TableRef(catalog, schema, table);
    var C, S, T := QuoteIdentifier(catalog), QuoteIdentifier(schema), QuoteIdentifier(table);
    TableRefParts(catalog, schema, table);
    var s3 := T + rest;
    var s2 := S + ("." + s3);
    assert ref + rest == C + ("." + s2);
    PartTokens(c, catalog, "." + s2, at);
    SymbolTokens(ContextAfter(c, C), '.', s2, at + |C|);
    PartTokens(START, schema, "." + s3, at + |C| + 1);
    SymbolTokens(ContextAfter(START, S), '.', s3, at + |C| + 1 + |S|);
    PartTokens(START, table, rest, at + |C| + 1 + |S| + 1);
    c' := ContextAfter(START, T);
    assert TokensIn(c, ref + rest, at) == RefList(catalog, schema, table, at) + TokensIn(c', rest, at + |ref|);
  }

  lemma PrefixTokens(rest: string)
    ensures TokensIn(START, "SELECT * FROM " + rest, 0) ==
            [SqlToken(0, 6, WordToken, "SELECT"), SqlToken(7, 8, SymbolToken, "*"), SqlToken(9, 13, WordToken, "FROM")]
            + TokensIn(START, rest, 14)
    ensures NoTicks(START, rest) ==> NoTicks(START, "SELECT * FROM " + rest)
  {
    hide First, Lex, ContextAfter, TokensIn, NoTicks;
    var s1 := "FROM" + (" " + rest);
    var s2 := "*" + (" " + s1);
    assert "SELECT * FROM " + rest == "SELECT" + (" " + s2);
    WordTokens(START, "SELECT", " " + s2, 0);
    SpaceTokens(ContextAfter(START, "SELECT"), s2, 6);
    assert ['*'] + (" " + s1) == s2;
    SymbolTokens(START, '*', " " + s1, 7);
    SpaceTokens(START, s1, 8);
    WordTokens(START, "FROM", " " + rest, 9);
    SpaceTokens(ContextAfter(START, "FROM"), rest, 13);
  }

  function PreviewTokens(catalog: string, schema: string, table: string, limit: nat): seq<SqlToken> {
    [SqlToken(0, 6, WordToken, "SELECT"), SqlToken(7, 8, SymbolToken, "*"), SqlToken(9, 13, WordToken, "FROM")]
    + RefList(catalog, schema, table, 14)
    + SuffixList(Digits(limit), 14 + |TableRef(catalog, schema, table)|)
  }

  lemma PreviewLexes(catalog: string, schema: string, table: string, limit: nat)
    requires catalog != "" && schema != "" && table != ""
    ensures TokensOf(PreviewStatement(catalog, schema, table, limit)) == PreviewTokens(catalog, schema, table, limit)
    ensures NoTicks(START, PreviewStatement(catalog, schema, table, limit))
  {
    hide First, Lex, TokensIn, QuoteIdentifier, PartToken, TableRef, Digits, NoTicks;
    var ref := TableRef(catalog, schema, table);
    var suffix := " LIMIT " + Digits(limit) + ";";
    var sql := PreviewStatement(catalog, schema, table, limit);
    assert sql == "SELECT * FROM " + (ref + suffix);
    PrefixTokens(ref + suffix);
    var c' := RefTokens(START, catalog, schema, table, suffix, 14);
    SuffixTokens(c', limit, 14 + |ref|);
    TokensAreIn(sql);
  }

  lemma TokensAreIn(sql: string)
    ensures TokensOf(sql) == TokensIn(START, sql, 0)
  {
    hide First, Lex;
    TokensAre(sql);
  }

  // ---------------------------------------------------------------- the rewriter on a preview statement

  lemma SelectKeyword()
    ensures KeywordOf("SELECT") == Select
  {
    UpperFixed("SELECT");
  }

  lemma FromKeyword()
    ensures KeywordOf("FROM") == From
  {
    UpperFixed("FROM");
    assert "FROM"[0] != "SELECT"[0];
  }

  lemma LimitKeyword()
    ensures KeywordOf("LIMIT") == ClauseEnd
  {
    UpperFixed("LIMIT");
    var c := "LIMIT"[0];
    assert "SELECT"[0] != c && "FROM"[0] != c && "JOIN"[0] != c && "PIVOT"[0] != c && "PIVOT_WIDER"[0] != c
           && "UNPIVOT"[0] != c && "USING"[0] != c && "ON"[0] != c && "UNION"[0] != c && "INTERSECT"[0] != c
           && "EXCEPT"[0] != c && "VALUES"[0] != c && "FETCH"[0] != c && "GROUP"[0] != c && "HAVING"[0] != c;
  }

  lemma NumberIsPlain(n: nat)
    ensures KeywordOf(Digits(n)) == Plain
  {
    hide Digits;
    UpperFixed(Digits(n));
    KeywordLetter(Digits(n));
  }

  lemma KeywordLetter(word: string)
    ensures KeywordOf(word) != Plain ==> Upper(word) != "" && 'A' <= Upper(word)[0] <= 'Z'
  {
  }

  /** The five tokens of a three-part name as a relation without anything that trails it. */
  function NameOf(atoms: seq<Atom>, i: nat): Relation
    requires i + 4 < |atoms|
  {
    Named([], atoms[i], [Part(atoms[i + 1], atoms[i + 2]), Part(atoms[i + 3], atoms[i + 4])], Nil)
  }

  lemma NilExpr(spot: Spot, inFrom: bool, due: bool, at: nat)
    ensures PrintExpr(Nil) == [] && WfExpr(Nil, spot, inFrom, due, true) && ExprSlots(Nil, at, inFrom, due) == []
    ensures ExprDue(Nil, inFrom, due) == due && !Starts([], '.')
  {
  }

  lemma ConsExpr(item: Item, rest: Expr, spot: Spot, inFrom: bool, due: bool, at: nat)
    ensures var e, next := Cons(item, rest), ItemDue(item, inFrom, due);
      && PrintExpr(e) == PrintItem(item) + PrintExpr(rest)
      && WfExpr(e, spot, inFrom, due, true) ==
         (WfItem(item, spot, inFrom, due, true) && MayFollow(item, rest, spot) && WfExpr(rest, spot, inFrom, next, true))
      && ExprSlots(e, at, inFrom, due) ==
         ItemSlots(item, at, inFrom, due) + ExprSlots(rest, at + |PrintItem(item)|, inFrom, next)
      && ExprDue(e, inFrom, due) == ExprDue(rest, inFrom, next)
  {
    hide PrintItem, WfItem, ItemSlots, ItemDue, MayFollow;
  }

  lemma LeafExpr(a: Atom, spot: Spot, at: nat)
    requires IsLeaf(a) && !spot.target
    ensures var e := Cons(Leaf(a), Nil);
      && PrintExpr(e) == [a] && WfExpr(e, spot, false, false, true) && ExprSlots(e, at, false, false) == []
  {
    hide KeywordOf, Role;
    NilExpr(spot, false, ItemDue(Leaf(a), false, false), at + 1);
    assert WfItem(Leaf(a), spot, false, false, true) && MayFollow(Leaf(a), Nil, spot);
  }

  lemma TwoParts(a: Part, b: Part)
    ensures PrintParts([a, b]) == [a.dot, a.name, b.dot, b.name]
  {
    assert [a, b][1..] == [b] && [b][1..] == [];
    assert PrintParts([b]) == [b.dot, b.name] + PrintParts([]);
    assert PrintParts([a, b]) == [a.dot, a.name] + PrintParts([b]);
  }

  lemma NameRelation(atoms: seq<Atom>, i: nat, inFrom: bool, code: bool, meant: bool)
    requires i + 4 < |atoms| && IsExternalName(atoms[i..i + 5], 0) && (code || IsHead(atoms[i]))
    ensures var r := NameOf(atoms, i);
      && PrintRelation(r) == atoms[i..i + 5] && WfRelation(r, inFrom, code, true) && !EndsPoint(PrintRelation(r))
      && RelationSlots(r, i, inFrom, code, meant) == [Slot(i, ExternalName(atoms, i), code, meant)]
  {
    hide KeywordOf, Role, IsHead, IsTrim, Upper;
    var r := NameOf(atoms, i);
    var xs := atoms[i..i + 5];
    assert xs == [atoms[i], atoms[i + 1], atoms[i + 2], atoms[i + 3], atoms[i + 4]];
    TwoParts(r.parts[0], r.parts[1]);
    NilExpr(QUIET, inFrom, false, i + 5);
    assert PrintBody(r) == xs;
    assert PrintRelation(r) == [] + xs + [] == xs;
    assert xs[4] == atoms[i + 4];
    assert WfBody(r, code, true);
    assert IsTableName(r);
    assert BodySlots(r, i, code, meant) == [Slot(i, ExternalName(atoms, i), code, meant)];
  }

  /** A FROM list of one relation. */
  lemma OneRelation(from: Atom, r: Relation, at: nat, seen: bool)
    requires IsKeyword(from, From) && WfRelation(r, seen, seen, true) && !EndsPoint(PrintRelation(r))
    requires PrintRelation(r) != []
    ensures var f := FromList(from, Relations(r, Done));
      && PrintFrom(f) == [from] + PrintRelation(r) && !EndsPoint(PrintFrom(f)) && WfFrom(f, false, seen, true)
      && FromEnd(f, false, seen) == seen && FromSlots(f, at, false, seen) == RelationSlots(r, at + 1, seen, seen, true)
  {
    hide KeywordOf, Role, PrintRelation, WfRelation, RelationSlots;
    var relations := Relations(r, Done);
    var k := at + 1 + |PrintRelation(r)|;
    assert PrintMore(Done) == [] && WfMore(Done, seen, false, true) && MoreSlots(Done, k, seen, false, true) == [];
    assert PrintRelations(relations) == PrintRelation(r) + [] == PrintRelation(r);
    assert RelationsEnd(relations, seen) == MoreEnd(Done, seen, false) == seen;
    assert RelationsSlots(relations, at + 1, seen, seen, true) == RelationSlots(r, at + 1, seen, seen, true) + [];
  }

  /** The preview statement as a query of the grammar. */
  function PreviewQuery(atoms: seq<Atom>): Query
    requires |atoms| == 11
  {
    Single(Term(
      SelectCore(atoms[0], Cons(Leaf(atoms[1]), Nil), FromList(atoms[2], Relations(NameOf(atoms, 3), Done))),
      Tail(atoms[8], Cons(Leaf(atoms[9]), Nil), NoTail)))
  }

  predicate IsPreview(atoms: seq<Atom>) {
    && |atoms| == 11
    && IsKeyword(atoms[0], Select) && IsSymbol(atoms[1], '*') && IsKeyword(atoms[2], From)
    && IsExternalName(atoms, 3)
    && IsKeyword(atoms[8], ClauseEnd) && IsKeyword(atoms[9], Plain) && IsSymbol(atoms[10], ';')
  }

  lemma PreviewCore(atoms: seq<Atom>)
    requires IsPreview(atoms)
    ensures
      var core := PreviewQuery(atoms).term.core;
      && PrintCore(core) == atoms[..8] && !EndsPoint(PrintCore(core)) && WfCore(core, false, false, true)
      && CoreEnd(core, false, false) && CoreSlots(core, 0, false, false) == [Slot(3, ExternalName(atoms, 3), true, true)]
  {
    hide KeywordOf, Role, PrintExpr, PrintFrom, PrintRelation, WfExpr, WfFrom, WfRelation, ExprSlots, FromSlots,
      RelationSlots, IsExternalName, ThreePart, ExternalName, CatalogName, FromEnd;
    var core := PreviewQuery(atoms).term.core;
    LeafExpr(atoms[1], LIST, 1);
    PreviewName(atoms);
    NameRelation(atoms, 3, true, true, true);
    assert atoms[3..8] != [];
    OneRelation(atoms[2], NameOf(atoms, 3), 2, true);
    var x, y := PrintExpr(core.items), PrintFrom(core.clause);
    assert !EndsTest(x) && !Starts(x, '.') && !EndsPoint(x);
    assert [atoms[0]] + x + y == atoms[..8];
    assert y[|y| - 1] == PrintCore(core)[7];
  }

  lemma PreviewName(atoms: seq<Atom>)
    requires IsPreview(atoms)
    ensures IsExternalName(atoms[3..8], 0)
  {
    hide KeywordOf, Role;
    var xs := atoms[3..8];
    assert xs[0] == atoms[3] && xs[1] == atoms[4] && xs[2] == atoms[5] && xs[3] == atoms[6] && xs[4] == atoms[7];
  }

  lemma PreviewTail(atoms: seq<Atom>)
    requires IsPreview(atoms)
    ensures
      var tails := PreviewQuery(atoms).term.tails;
      PrintTails(tails) == atoms[8..10] && WfTails(tails, true, false, true) && TailsSlots(tails, 8, true, false) == []
  {
    hide KeywordOf, Role;
    LeafExpr(atoms[9], LIST, 9);
    assert PrintTails(NoTail) == [] && forall k, dotted :: TailsSlots(NoTail, k, false, dotted) == [];
    hide ExprSlots, WfExpr, PrintExpr;
    assert forall dotted :: WfTails(NoTail, false, dotted, true);
  }

  lemma PreviewIsQuery(atoms: seq<Atom>)
    requires IsPreview(atoms)
    ensures var q := PreviewQuery(atoms);
            && WfQuery(q, false, false, true) && atoms == PrintQuery(q) + [atoms[10]]
            && QuerySlots(q, 0, false, false) == [Slot(3, ExternalName(atoms, 3), true, true)]
  {
    hide KeywordOf, Role, PrintCore, PrintTails, WfCore, WfTails, CoreSlots, TailsSlots, CoreEnd, EndsPoint,
      ExternalName, CatalogName;
    var q := PreviewQuery(atoms);
    PreviewCore(atoms);
    PreviewTail(atoms);
    assert PrintTerm(q.term) == atoms[..8] + atoms[8..10] == atoms[..10];
    assert TermSlots(q.term, 0, false, false) == [Slot(3, ExternalName(atoms, 3), true, true)] + [];
  }

  lemma PreviewAtoms(catalog: string, schema: string, table: string, limit: nat)
    ensures
      var atoms := AtomsOf(PreviewTokens(catalog, schema, table, limit));
      IsPreview(atoms) && ExternalName(atoms, 3) == catalog + "." + schema + "." + table
  {
    hide KeywordOf, Role, QuoteIdentifier, TableRef, PartToken, Digits;
    SelectKeyword();
    FromKeyword();
    LimitKeyword();
    NumberIsPlain(limit);
    var tokens := PreviewTokens(catalog, schema, table, limit);
    assert |tokens| == 11;
    var atoms := AtomsOf(tokens);
    assert atoms[3] == AtomAt(tokens, 3) && atoms[4] == AtomAt(tokens, 4) && atoms[5] == AtomAt(tokens, 5)
           && atoms[6] == AtomAt(tokens, 6) && atoms[7] == AtomAt(tokens, 7) && atoms[8] == AtomAt(tokens, 8);
  }

  /**
   * A preview of a registered external table is rewritten to the `delta_scan` of its location, whatever
   * the three names are; a preview of any other table is left as it is.
   */
  lemma PreviewRewrite(catalog: string, schema: string, table: string, limit: nat, registry: map<string, string>)
    requires catalog != "" && schema != "" && table != ""
    ensures
      var name := catalog + "." + schema + "." + table;
      Rewrite(PreviewStatement(catalog, schema, table, limit), registry) ==
      if name in registry then "SELECT * FROM " + DeltaScan(registry[name]) + " LIMIT " + Digits(limit) + ";"
      else PreviewStatement(catalog, schema, table, limit)
  {
    hide KeywordOf, Role, QuoteIdentifier, TableRef, PartToken, Digits, TokensOf, Rewrite, WfQuery, PrintQuery,
      QuerySlots, PreviewTokens, PreviewQuery, IsPreview, DeltaScan, EditsOk, Substitute, ExternalName, CatalogName;
    var sql := PreviewStatement(catalog, schema, table, limit);
    var tokens := PreviewTokens(catalog, schema, table, limit);
    PreviewLexes(catalog, schema, table, limit);
    PreviewAtoms(catalog, schema, table, limit);
    var atoms := AtomsOf(tokens);
    PreviewIsQuery(atoms) by {
      assert IsPreview(atoms);
    }
    PreviewSpan(catalog, schema, table, limit);
    GrammarRewrite(sql, PreviewQuery(atoms), [atoms[10]], registry, true) by {
      PreviewTail10(atoms);
    }
    var marks := Taken(QuerySlots(PreviewQuery(atoms), 0, false, false), registry);
    TakenOne(Slot(3, ExternalName(atoms, 3), true, true), registry);
    var edits := EditsOf(tokens, registry, marks);
    if ExternalName(atoms, 3) in registry {
      var e := EditOf(tokens, registry, Mark(3, ExternalName(atoms, 3)));
      assert edits == [e];
      SubstituteOne(sql, e);
    } else {
      assert edits == [];
      SubstituteNone(sql);
    }
  }

  lemma PreviewTail10(atoms: seq<Atom>)
    requires IsPreview(atoms)
    ensures |atoms| == 11 && IsSymbol(atoms[10], ';')
  {
  }

  /** The table reference is the text between the two fixed parts. */
  lemma PreviewSpan(catalog: string, schema: string, table: string, limit: nat)
    requires catalog != "" && schema != "" && table != ""
    ensures
      var sql := PreviewStatement(catalog, schema, table, limit);
      var tokens := PreviewTokens(catalog, schema, table, limit);
      && |tokens| == 11 && tokens[3].start == 14 && 14 <= tokens[7].end <= |sql|
      && sql[..14] == "SELECT * FROM "
      && sql[tokens[7].end..] == " LIMIT " + Digits(limit) + ";"
  {
    hide QuoteIdentifier, TableRef, PartToken, Digits;
    TableRefParts(catalog, schema, table);
    var sql := PreviewStatement(catalog, schema, table, limit);
    var head := "SELECT * FROM " + TableRef(catalog, schema, table);
    assert sql == head + (" LIMIT " + Digits(limit) + ";");
    assert sql[|head|..] == " LIMIT " + Digits(limit) + ";";
    assert sql[..14] == "SELECT * FROM ";
  }

  lemma SubstituteOne(sql: string, e: Edit)
    requires EditsOk(sql, 0, [e])
    ensures e.start <= e.end <= |sql| && Substitute(sql, 0, [e]) == sql[..e.start] + e.text + sql[e.end..]
  {
    var edits := [e];
    assert edits[0] == e && edits[1..] == [];
    assert Substitute(sql, e.end, []) == sql[e.end..];
  }

  lemma SubstituteNone(sql: string)
    ensures Substitute(sql, 0, []) == sql
  {
  }

  /** What the server makes of a preview: backticks translated first, external tables replaced after. */
  lemma PreviewServed(catalog: string, schema: string, table: string, limit: nat, registry: map<string, string>)
    requires catalog != "" && schema != "" && table != ""
    ensures
      var name := catalog + "." + schema + "." + table;
      var preview := PreviewStatement(catalog, schema, table, limit);
      && Debacktick(START, preview) == preview
      && Rewrite(Debacktick(START, preview), registry) ==
         if name in registry then "SELECT * FROM " + DeltaScan(registry[name]) + " LIMIT " + Digits(limit) + ";"
         else preview
  {
    hide PreviewStatement, Rewrite, NoTicks, Digits, DeltaScan, Debacktick;
    PreviewLexes(catalog, schema, table, limit);
    NoTicksUnchanged(START, PreviewStatement(catalog, schema, table, limit));
    PreviewRewrite(catalog, schema, table, limit, registry);
  }
}
