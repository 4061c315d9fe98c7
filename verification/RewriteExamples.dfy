/** Shapes on which the rewriter departs from the query, as texts. */
module RewriteExamples {
  import opened Text
  import opened SqlLexer
  import opened Backticks
  import opened SqlTokens
  import opened Rewriter
  import opened QueryGrammar
  import opened RewriteGrammar
  import opened SqlIdentifier

  // ---------------------------------------------------------------- words

  lemma ShortIsPlain(word: string)
    requires |Upper(word)| == 1
    ensures KeywordOf(word) == Plain
  {
  }

  lemma NoKeywordInT(word: string)
    requires Upper(word) != "" && Upper(word)[0] == 'T'
    ensures KeywordOf(word) == Plain
  {
  }

  lemma OneLetter(c: char)
    requires c in "abctuvwx1"
    ensures KeywordOf([c]) == Plain && Upper([c]) != "TRIM"
  {
    assert [c][1..] == "";
    assert Upper([c]) == UpperChar(c) + Upper("");
    ShortIsPlain([c]);
  }

  lemma TrimIsTrim()
    ensures KeywordOf("trim") == Plain && Upper("trim") == "TRIM"
  {
    assert "trim"[1..] == "rim" && "rim"[1..] == "im" && "im"[1..] == "m" && "m"[1..] == "";
    assert Upper("m") == "M" && Upper("im") == "IM" && Upper("rim") == "RIM";
    assert Upper("trim") == "T" + Upper("rim");
    NoKeywordInT("trim");
  }

  lemma JoinKeyword()
    ensures KeywordOf("JOIN") == Join
  {
    UpperFixed("JOIN");
    assert "JOIN"[0] != "SELECT"[0] && "JOIN"[0] != "FROM"[0];
  }

  lemma OnKeyword()
    ensures KeywordOf("ON") == On
  {
    UpperFixed("ON");
    var c := "ON"[0];
    assert "SELECT"[0] != c && "FROM"[0] != c && "JOIN"[0] != c && "PIVOT"[0] != c && "PIVOT_WIDER"[0] != c
           && "UNPIVOT"[0] != c && "USING"[0] != c;
  }

  // ---------------------------------------------------------------- tokens

  /** A word and the blank behind it. */
  lemma SpacedWord(c: Context, w: string, rest: string, at: nat)
    requires w != "" && w[0] != '$' && forall k | 0 <= k < |w| :: IsIdentifierChar(w[k])
    ensures TokensIn(c, w + (" " + rest), at) ==
            [SqlToken(at, at + |w|, WordToken, w)] + TokensIn(START, rest, at + |w| + 1)
  {
    hide First, Lex, ContextAfter, TokensIn, NoTicks;
    WordTokens(c, w, " " + rest, at);
    SpaceTokens(ContextAfter(c, w), rest, at + |w|);
  }

  /** A sign and the blank behind it. */
  lemma SpacedSign(c: Context, x: char, rest: string, at: nat)
    requires IsSign(x)
    ensures TokensIn(c, [x] + (" " + rest), at) ==
            [SqlToken(at, at + 1, SymbolToken, [x])] + TokensIn(START, rest, at + 2)
  {
    hide First, Lex, ContextAfter, TokensIn, NoTicks;
    SymbolTokens(c, x, " " + rest, at);
    SpaceTokens(START, rest, at + 1);
  }

  /** `a.b.c`, at the end of a text or before a parenthesis or bracket. */
  lemma NameTokens(c: Context, rest: string, at: nat) returns (c': Context)
    requires rest == "" || rest[0] == '(' || rest[0] == ')' || rest[0] == ']'
    ensures TokensIn(c, "a.b.c" + rest, at) == NameList(at) + TokensIn(c', rest, at + 5)
  {
    hide First, Lex, ContextAfter, TokensIn, NoTicks;
    var s2 := "c" + rest;
    var s1 := "b" + ("." + s2);
    assert "a.b.c" + rest == "a" + ("." + s1);
    assert ['.'] + s1 == "." + s1 && ['.'] + s2 == "." + s2;
    WordTokens(c, "a", "." + s1, at);
    SymbolTokens(ContextAfter(c, "a"), '.', s1, at + 1);
    WordTokens(START, "b", "." + s2, at + 2);
    SymbolTokens(ContextAfter(START, "b"), '.', s2, at + 3);
    WordTokens(START, "c", rest, at + 4);
    c' := ContextAfter(START, "c");
  }

  function NameList(at: nat): seq<SqlToken> {
    [SqlToken(at, at + 1, WordToken, "a"), SqlToken(at + 1, at + 2, SymbolToken, "."),
     SqlToken(at + 2, at + 3, WordToken, "b"), SqlToken(at + 3, at + 4, SymbolToken, "."),
     SqlToken(at + 4, at + 5, WordToken, "c")]
  }

  function PointTokens(): seq<SqlToken> {
    [SqlToken(0, 6, WordToken, "SELECT"), SqlToken(7, 8, WordToken, "1"), SqlToken(8, 9, SymbolToken, "."),
     SqlToken(10, 14, WordToken, "FROM")] + NameList(15)
  }

  lemma PointLexes()
    ensures TokensOf("SELECT 1. FROM a.b.c") == PointTokens()
  {
    hide First, Lex, ContextAfter, TokensIn, NoTicks;
    var s2 := "FROM" + (" " + "a.b.c");
    var s1 := "1" + ("." + (" " + s2));
    assert "SELECT 1. FROM a.b.c" == "SELECT" + (" " + s1);
    assert ['.'] + (" " + s2) == "." + (" " + s2);
    SpacedWord(START, "SELECT", s1, 0);
    WordTokens(START, "1", "." + (" " + s2), 7);
    SpacedSign(ContextAfter(START, "1"), '.', s2, 8);
    SpacedWord(START, "FROM", "a.b.c", 10);
    assert "a.b.c" + "" == "a.b.c";
    var c' := NameTokens(START, "", 15);
    NoTokens(c', 20);
    TokensAreIn("SELECT 1. FROM a.b.c");
  }

  function TrimTokens(): seq<SqlToken> {
    [SqlToken(0, 6, WordToken, "SELECT"), SqlToken(7, 11, WordToken, "trim"), SqlToken(11, 12, SymbolToken, "("),
     SqlToken(12, 16, WordToken, "FROM")] + NameList(17) + [SqlToken(22, 23, SymbolToken, ")")]
  }

  lemma TrimLexes()
    ensures TokensOf("SELECT trim(FROM a.b.c)") == TrimTokens()
  {
    hide First, Lex, ContextAfter, TokensIn, NoTicks;
    var s3 := "a.b.c" + ")";
    var s2 := "FROM" + (" " + s3);
    var s1 := "trim" + ("(" + s2);
    assert "SELECT trim(FROM a.b.c)" == "SELECT" + (" " + s1);
    assert ['('] + s2 == "(" + s2 && [')'] + "" == ")";
    SpacedWord(START, "SELECT", s1, 0);
    WordTokens(START, "trim", "(" + s2, 7);
    SymbolTokens(ContextAfter(START, "trim"), '(', s2, 11);
    SpacedWord(START, "FROM", s3, 12);
    var c' := NameTokens(START, ")", 17);
    SymbolTokens(c', ')', "", 22);
    NoTokens(START, 23);
    TokensAreIn("SELECT trim(FROM a.b.c)");
  }

  function ListTokens(): seq<SqlToken> {
    [SqlToken(0, 6, WordToken, "SELECT"), SqlToken(7, 8, WordToken, "x"), SqlToken(9, 13, WordToken, "FROM"),
     SqlToken(14, 15, WordToken, "t"), SqlToken(16, 20, WordToken, "JOIN"), SqlToken(21, 22, WordToken, "u"),
     SqlToken(23, 25, WordToken, "ON"), SqlToken(26, 27, WordToken, "v"), SqlToken(28, 29, SymbolToken, "="),
     SqlToken(30, 31, SymbolToken, "["), SqlToken(31, 32, WordToken, "w"), SqlToken(32, 33, SymbolToken, ",")]
    + NameList(34) + [SqlToken(39, 40, SymbolToken, "]")]
  }

  /** `v = [w, a.b.c]`. */
  lemma ListEnd(at: nat)
    ensures TokensIn(START, "v" + (" " + ("=" + (" " + ("[" + ("w" + ("," + (" " + ("a.b.c" + "]")))))))), at) ==
      [SqlToken(at, at + 1, WordToken, "v"), SqlToken(at + 2, at + 3, SymbolToken, "="),
       SqlToken(at + 4, at + 5, SymbolToken, "["), SqlToken(at + 5, at + 6, WordToken, "w"),
       SqlToken(at + 6, at + 7, SymbolToken, ",")] + NameList(at + 8) + [SqlToken(at + 13, at + 14, SymbolToken, "]")]
  {
    hide First, Lex, ContextAfter, TokensIn, NoTicks;
    var s9 := "a.b.c" + "]";
    var s8 := "w" + ("," + (" " + s9));
    assert ['='] + (" " + ("[" + s8)) == "=" + (" " + ("[" + s8)) && ['['] + s8 == "[" + s8;
    assert [','] + (" " + s9) == "," + (" " + s9) && [']'] + "" == "]";
    SpacedWord(START, "v", "=" + (" " + ("[" + s8)), at);
    SpacedSign(START, '=', "[" + s8, at + 2);
    SymbolTokens(START, '[', s8, at + 4);
    WordTokens(START, "w", "," + (" " + s9), at + 5);
    SpacedSign(ContextAfter(START, "w"), ',', s9, at + 6);
    var c' := NameTokens(START, "]", at + 8);
    SymbolTokens(c', ']', "", at + 13);
    NoTokens(START, at + 14);
  }

  /** `SELECT x FROM t JOIN u ON `, before any rest. */
  lemma ListBegin(rest: string)
    ensures TokensIn(START, "SELECT" + (" " + ("x" + (" " + ("FROM" + (" " + ("t" + (" " + ("JOIN" + (" " + ("u" + (" " + (
                              "ON" + (" " + rest))))))))))))), 0) ==
      [SqlToken(0, 6, WordToken, "SELECT"), SqlToken(7, 8, WordToken, "x"), SqlToken(9, 13, WordToken, "FROM"),
       SqlToken(14, 15, WordToken, "t"), SqlToken(16, 20, WordToken, "JOIN"), SqlToken(21, 22, WordToken, "u"),
       SqlToken(23, 25, WordToken, "ON")] + TokensIn(START, rest, 26)
  {
    hide First, Lex, ContextAfter, TokensIn, NoTicks;
    var s6 := "ON" + (" " + rest);
    var s5 := "JOIN" + (" " + ("u" + (" " + s6)));
    var s4 := "FROM" + (" " + ("t" + (" " + s5)));
    SpacedWord(START, "SELECT", "x" + (" " + s4), 0);
    SpacedWord(START, "x", s4, 7);
    SpacedWord(START, "FROM", "t" + (" " + s5), 9);
    SpacedWord(START, "t", s5, 14);
    SpacedWord(START, "JOIN", "u" + (" " + s6), 16);
    SpacedWord(START, "u", s6, 21);
    SpacedWord(START, "ON", rest, 23);
  }

  lemma ListText(rest: string)
    ensures "SELECT" + (" " + ("x" + (" " + ("FROM" + (" " + ("t" + (" " + ("JOIN" + (" " + ("u" + (" " + (
            "ON" + (" " + rest))))))))))))) == "SELECT x FROM t JOIN u ON " + rest
  {
    var s2 := "JOIN" + (" " + ("u" + (" " + ("ON" + (" " + rest)))));
    assert s2 == "JOIN u ON " + rest;
    var s1 := "FROM" + (" " + ("t" + (" " + s2)));
    assert s1 == "FROM t " + s2;
    assert "FROM t " + s2 == "FROM t JOIN u ON " + rest;
    assert "SELECT" + (" " + ("x" + (" " + s1))) == "SELECT x " + s1;
  }

  lemma ListRest()
    ensures "v" + (" " + ("=" + (" " + ("[" + ("w" + ("," + (" " + ("a.b.c" + "]")))))))) == "v = [w, a.b.c]"
  {
    assert "[" + ("w" + ("," + (" " + ("a.b.c" + "]")))) == "[w, a.b.c]";
  }

  lemma ListWhole()
    ensures "SELECT x FROM t JOIN u ON " + "v = [w, a.b.c]" == "SELECT x FROM t JOIN u ON v = [w, a.b.c]"
  {
  }

  lemma ListLexes()
    ensures TokensOf("SELECT x FROM t JOIN u ON v = [w, a.b.c]") == ListTokens()
  {
    hide First, Lex, ContextAfter, TokensIn, NoTicks, TokensOf;
    ListRest();
    ListBegin("v = [w, a.b.c]");
    ListEnd(26);
    ListText("v = [w, a.b.c]");
    ListWhole();
    TokensAreIn("SELECT x FROM t JOIN u ON v = [w, a.b.c]");
  }

  function CallTokens(): seq<SqlToken> {
    [SqlToken(0, 6, WordToken, "SELECT"), SqlToken(7, 8, SymbolToken, "*"), SqlToken(9, 13, WordToken, "FROM")]
    + NameList(14) + [SqlToken(19, 20, SymbolToken, "("), SqlToken(20, 21, WordToken, "1"), SqlToken(21, 22, SymbolToken, ")")]
  }

  /** `a.b.c(1)`. */
  lemma CallEnd(at: nat)
    ensures TokensIn(START, "a.b.c" + ("(" + ("1" + ")")), at) ==
      NameList(at) + [SqlToken(at + 5, at + 6, SymbolToken, "("), SqlToken(at + 6, at + 7, WordToken, "1"),
                      SqlToken(at + 7, at + 8, SymbolToken, ")")]
  {
    hide First, Lex, ContextAfter, TokensIn, NoTicks;
    var s4 := "1" + ")";
    assert ['('] + s4 == "(" + s4 && [')'] + "" == ")";
    var c' := NameTokens(START, "(" + s4, at);
    SymbolTokens(c', '(', s4, at + 5);
    WordTokens(START, "1", ")", at + 6);
    SymbolTokens(ContextAfter(START, "1"), ')', "", at + 7);
    NoTokens(START, at + 8);
  }

  lemma CallLexes()
    ensures TokensOf("SELECT * FROM a.b.c(1)") == CallTokens()
  {
    hide First, Lex, ContextAfter, TokensIn, NoTicks;
    var s3 := "a.b.c" + ("(" + ("1" + ")"));
    var s2 := "FROM" + (" " + s3);
    var s1 := "*" + (" " + s2);
    assert s3 == "a.b.c(1)";
    assert "SELECT * FROM a.b.c(1)" == "SELECT" + (" " + s1);
    assert ['*'] + (" " + s2) == s1;
    SpacedWord(START, "SELECT", s1, 0);
    SpacedSign(START, '*', s2, 7);
    SpacedWord(START, "FROM", s3, 9);
    CallEnd(14);
    TokensAreIn("SELECT * FROM a.b.c(1)");
  }

  // ---------------------------------------------------------------- expressions

  /** A token that is no point, before an expression that does not begin with one. */
  lemma LeafBefore(a: Atom, rest: Expr, spot: Spot, inFrom: bool, due: bool, at: nat)
    requires IsLeaf(a) && !IsTrim(a) && !IsKeyword(a, Modifier) && !Starts(PrintExpr(rest), '.') && !spot.target
    requires WfExpr(rest, spot, inFrom, due && a.kind == SymbolToken, true)
    ensures var e := Cons(Leaf(a), rest); var next := due && a.kind == SymbolToken;
      && PrintExpr(e) == [a] + PrintExpr(rest) && WfExpr(e, spot, inFrom, due, true)
      && ExprSlots(e, at, inFrom, due) == ExprSlots(rest, at + 1, inFrom, next)
      && ExprDue(e, inFrom, due) == ExprDue(rest, inFrom, next)
  {
    hide KeywordOf, Role, PrintExpr, WfExpr, ExprSlots, ExprDue, Upper;
    ConsExpr(Leaf(a), rest, spot, inFrom, due, at);
    assert [] + ExprSlots(rest, at + 1, inFrom, due && a.kind == SymbolToken)
        == ExprSlots(rest, at + 1, inFrom, due && a.kind == SymbolToken);
  }

  /** A three-part name as the last column of an expression. */
  lemma ColumnExpr(atoms: seq<Atom>, i: nat, spot: Spot, inFrom: bool, due: bool)
    requires i + 4 < |atoms| && IsExternalName(atoms[i..i + 5], 0) && IsHead(atoms[i]) && !spot.target
    ensures var e := Cons(ColumnOf(atoms, i), Nil);
      && PrintExpr(e) == atoms[i..i + 5] && WfExpr(e, spot, inFrom, due, true) && !Starts(PrintExpr(e), '.')
      && ExprSlots(e, i, inFrom, due) == [Slot(i, ExternalName(atoms, i), due, false)] && !ExprDue(e, inFrom, due)
  {
    hide KeywordOf, Role, IsHead;
    var item := ColumnOf(atoms, i);
    var xs := atoms[i..i + 5];
    assert xs == [atoms[i], atoms[i + 1], atoms[i + 2], atoms[i + 3], atoms[i + 4]];
    TwoParts(item.parts[0], item.parts[1]);
    assert PrintItem(item) == xs;
    NilExpr(spot, inFrom, false, i + 5);
    ConsExpr(item, Nil, spot, inFrom, due, i);
    assert WfItem(item, spot, inFrom, due, true) && MayFollow(item, Nil, spot);
    assert xs + [] == xs;
  }

  function ColumnOf(atoms: seq<Atom>, i: nat): Item
    requires i + 4 < |atoms|
  {
    Column(atoms[i], [Part(atoms[i + 1], atoms[i + 2]), Part(atoms[i + 3], atoms[i + 4])])
  }

  /** A query that is a core alone. */
  lemma CoreQuery(core: Core)
    requires WfCore(core, false, false, true)
    ensures var q := Single(Term(core, NoTail));
      WfQuery(q, false, false, true) && PrintQuery(q) == PrintCore(core)
      && QuerySlots(q, 0, false, false) == CoreSlots(core, 0, false, false)
  {
    hide WfCore, PrintCore, CoreSlots, CoreEnd, EndsPoint;
    var t := Term(core, NoTail);
    var dotted := EndsPoint(PrintCore(core));
    assert PrintTails(NoTail) == [] && PrintCore(core) + [] == PrintCore(core);
    assert TailsSlots(NoTail, |PrintCore(core)|, CoreEnd(core, false, false), dotted) == [];
    assert TermSlots(t, 0, false, false) == CoreSlots(core, 0, false, false) + [];
    assert WfTails(NoTail, CoreEnd(core, false, false), dotted, true);
  }

  // ---------------------------------------------------------------- queries

  ghost predicate NameAtoms(atoms: seq<Atom>, i: nat) {
    i + 4 < |atoms| && IsExternalName(atoms[i..i + 5], 0) && IsHead(atoms[i]) && ExternalName(atoms, i) == "a.b.c"
  }

  ghost predicate IsPoint(atoms: seq<Atom>) {
    && |atoms| == 9 && IsKeyword(atoms[0], Select) && IsNumber(atoms[1]) && IsSymbol(atoms[2], '.')
    && IsKeyword(atoms[3], From) && NameAtoms(atoms, 4)
  }

  function PointCore(atoms: seq<Atom>): Core
    requires |atoms| == 9
  {
    SelectCore(atoms[0], Cons(Decimal([atoms[1]], atoms[2], []), Nil),
               FromList(atoms[3], Relations(NameOf(atoms, 4), Done)))
  }

  lemma PointIs(atoms: seq<Atom>)
    requires IsPoint(atoms)
    ensures var core := PointCore(atoms);
      && WfCore(core, false, false, true) && PrintCore(core) == atoms
      && CoreSlots(core, 0, false, false) == [Slot(4, "a.b.c", false, true)]
  {
    hide KeywordOf, Role, PrintExpr, PrintRelation, PrintFrom, WfExpr, WfRelation, WfFrom, ExprSlots, RelationSlots,
      FromSlots, FromEnd, IsHead, IsExternalName, ThreePart, ExternalName, CatalogName;
    var core := PointCore(atoms);
    PointItem(atoms[1], atoms[2]);
    NameRelation(atoms, 4, false, false, true);
    OneRelation(atoms[3], NameOf(atoms, 4), 3, false);
    var x := PrintExpr(core.items);
    assert EndsPoint(x) && !Starts(x, '.') && !EndsTest(x);
    assert [atoms[0]] + x + ([atoms[3]] + atoms[4..9]) == atoms;
    assert CoreSlots(core, 0, false, false) == [] + [Slot(4, "a.b.c", false, true)];
  }

  lemma PointItem(whole: Atom, dot: Atom)
    requires IsNumber(whole) && IsSymbol(dot, '.')
    ensures var e := Cons(Decimal([whole], dot, []), Nil);
      && PrintExpr(e) == [whole, dot] && WfExpr(e, LIST, false, false, true) && ExprSlots(e, 1, false, false) == []
  {
    hide KeywordOf, Role;
    var item := Decimal([whole], dot, []);
    NilExpr(LIST, false, false, 3);
    ConsExpr(item, Nil, LIST, false, false, 1);
    assert PrintItem(item) == [whole, dot] && WfItem(item, LIST, false, false, true) && MayFollow(item, Nil, LIST);
  }

  ghost predicate IsTrimCall(atoms: seq<Atom>) {
    && |atoms| == 10 && IsKeyword(atoms[0], Select) && IsTrim(atoms[1]) && IsSymbol(atoms[2], '(')
    && IsKeyword(atoms[3], From) && NameAtoms(atoms, 4) && IsSymbol(atoms[9], ')')
  }

  function TrimCore(atoms: seq<Atom>): Core
    requires |atoms| == 10
  {
    SelectCore(atoms[0],
               Cons(TrimFrom(atoms[1], atoms[2], atoms[3], Cons(ColumnOf(atoms, 4), Nil), atoms[9]), Nil), NoFrom)
  }

  lemma TrimIs(atoms: seq<Atom>)
    requires IsTrimCall(atoms)
    ensures var core := TrimCore(atoms);
      && WfCore(core, false, false, true) && PrintCore(core) == atoms
      && CoreSlots(core, 0, false, false) == [Slot(4, "a.b.c", true, false)]
  {
    hide KeywordOf, Role, PrintExpr, WfExpr, ExprSlots, ExprDue, IsHead, IsExternalName, ThreePart, ExternalName,
      CatalogName, Upper;
    var core := TrimCore(atoms);
    var item := core.items.item;
    ColumnExpr(atoms, 4, PLAIN_LIST, true, true);
    assert PrintItem(item) == [atoms[1]] + ([atoms[2]] + ([atoms[3]] + atoms[4..9]) + [atoms[9]]) == atoms[1..];
    NilExpr(LIST, false, false, 10);
    ConsExpr(item, Nil, LIST, false, false, 1);
    assert WfItem(item, LIST, false, false, true) && MayFollow(item, Nil, LIST);
    var x := PrintExpr(core.items);
    assert x == atoms[1..] + [] == atoms[1..];
    assert x[|x| - 1] == atoms[9] && x[0] == atoms[1];
    assert [atoms[0]] + x + [] == atoms;
    assert CoreSlots(core, 0, false, false) == ([Slot(4, "a.b.c", true, false)] + []) + [];
  }

  ghost predicate IsListJoin(atoms: seq<Atom>) {
    && |atoms| == 18 && IsKeyword(atoms[0], Select) && IsPlainWord(atoms[1]) && IsKeyword(atoms[2], From)
    && IsPlainWord(atoms[3]) && IsKeyword(atoms[4], Join) && IsPlainWord(atoms[5]) && IsKeyword(atoms[6], On)
    && IsPlainWord(atoms[7]) && IsSymbol(atoms[8], '=') && IsSymbol(atoms[9], '[') && IsPlainWord(atoms[10])
    && IsSymbol(atoms[11], ',') && NameAtoms(atoms, 12) && IsSymbol(atoms[17], ']')
  }

  predicate IsPlainWord(a: Atom) { IsKeyword(a, Plain) && !IsTrim(a) && !IsNumber(a) }

  function ListItem(atoms: seq<Atom>): Item
    requires |atoms| == 18
  {
    Bracket(atoms[9], Cons(Leaf(atoms[10]), Cons(Separator(atoms[11]), Cons(ColumnOf(atoms, 12), Nil))), atoms[17], [])
  }

  function ListCore(atoms: seq<Atom>): Core
    requires |atoms| == 18
  {
    var on := Cons(Leaf(atoms[6]), Cons(Leaf(atoms[7]), Cons(Leaf(atoms[8]), Cons(ListItem(atoms), Nil))));
    SelectCore(atoms[0], Cons(Leaf(atoms[1]), Nil),
      FromList(atoms[2], Relations(Named([], atoms[3], [], Nil), Joined(atoms[4], Named([], atoms[5], [], on), Done))))
  }

  lemma SliceCons(atoms: seq<Atom>, i: nat, j: nat)
    requires i < j <= |atoms|
    ensures [atoms[i]] + atoms[i + 1..j] == atoms[i..j]
  {
  }

  lemma ListBody(atoms: seq<Atom>)
    requires IsListJoin(atoms)
    ensures var body := ListItem(atoms).body;
      && PrintExpr(body) == atoms[10..17] && WfExpr(body, PLAIN_LIST, true, false, true) && !ExprDue(body, true, false)
      && ExprSlots(body, 10, true, false) == [Slot(12, "a.b.c", true, false)]
  {
    hide KeywordOf, Role, PrintExpr, WfExpr, ExprSlots, ExprDue, IsHead, IsExternalName, ThreePart, ExternalName,
      CatalogName, Upper;
    var e2 := Cons(ColumnOf(atoms, 12), Nil);
    var e1 := Cons(Separator(atoms[11]), e2);
    ColumnExpr(atoms, 12, PLAIN_LIST, true, true);
    ConsExpr(Separator(atoms[11]), e2, PLAIN_LIST, true, false, 11);
    SliceCons(atoms, 11, 17);
    SliceCons(atoms, 10, 17);
    assert PrintExpr(e1) == [atoms[11]] + atoms[12..17];
    assert WfExpr(e1, PLAIN_LIST, true, false, true) && !Starts(PrintExpr(e1), '.');
    LeafBefore(atoms[10], e1, PLAIN_LIST, true, false, 10);
    assert ExprSlots(e1, 11, true, false) == [] + [Slot(12, "a.b.c", true, false)];
  }

  lemma ListItemIs(atoms: seq<Atom>)
    requires IsListJoin(atoms)
    ensures var item := ListItem(atoms);
      && PrintItem(item) == atoms[9..18] && WfItem(item, QUIET, true, false, true) && !ItemDue(item, true, false)
      && ItemSlots(item, 9, true, false) == [Slot(12, "a.b.c", true, false)]
  {
    hide KeywordOf, Role, PrintExpr, WfExpr, ExprSlots, ExprDue, NameAtoms, Upper, IsHead, IsExternalName, ThreePart;
    ListBody(atoms);
    SliceCons(atoms, 9, 17);
    assert atoms[9..17] + [atoms[17]] + [] == atoms[9..18];
    assert PrintParts([]) == [];
  }

  lemma ListTrail(atoms: seq<Atom>)
    requires IsListJoin(atoms)
    ensures var trail := ListCore(atoms).clause.relations.more.relation.trail;
      && PrintExpr(trail) == atoms[6..18] && WfExpr(trail, QUIET, true, false, true)
      && ExprSlots(trail, 6, true, false) == [Slot(12, "a.b.c", true, false)]
  {
    hide KeywordOf, Role, PrintExpr, WfExpr, ExprSlots, ExprDue, Upper, PrintItem, WfItem, ItemSlots, ItemDue,
      NameAtoms, IsLeaf, IsTrim, IsListJoin, ListItem, IsHead, IsExternalName, ThreePart, PrintQuery;
    ListLeaves(atoms);
    ListItemIs(atoms);
    var item := ListItem(atoms);
    var e3 := Cons(item, Nil);
    var e2 := Cons(Leaf(atoms[8]), e3);
    var e1 := Cons(Leaf(atoms[7]), e2);
    NilExpr(QUIET, true, false, 18);
    ConsExpr(item, Nil, QUIET, true, false, 9);
    BracketLast(atoms, item);
    assert PrintExpr(e3) == atoms[9..18] && ExprSlots(e3, 9, true, false) == [Slot(12, "a.b.c", true, false)];
    SliceCons(atoms, 8, 18);
    SliceCons(atoms, 7, 18);
    SliceCons(atoms, 6, 18);
    LeafBefore(atoms[8], e3, QUIET, true, false, 8);
    LeafBefore(atoms[7], e2, QUIET, true, false, 7);
    LeafBefore(atoms[6], e1, QUIET, true, false, 6);
  }

  lemma BracketLast(atoms: seq<Atom>, item: Item)
    requires |atoms| == 18 && item == ListItem(atoms)
    ensures MayFollow(item, Nil, QUIET)
  {
    assert PrintExpr(Nil) == [];
  }

  /** The tokens before the bracket are leaves, and none is a point. */
  lemma ListLeaves(atoms: seq<Atom>)
    requires IsListJoin(atoms)
    ensures |atoms| == 18
    ensures forall k | 6 <= k <= 8 :: IsLeaf(atoms[k]) && !IsTrim(atoms[k]) && !IsKeyword(atoms[k], Modifier)
    ensures forall k | 7 <= k <= 9 :: !IsSymbol(atoms[k], '.')
  {
    hide KeywordOf, Role, Upper, NameAtoms;
    OnIsLeaf(atoms[6]);
  }

  lemma OnIsLeaf(a: Atom)
    requires IsKeyword(a, On)
    ensures IsLeaf(a) && !IsTrim(a) && !IsKeyword(a, Modifier)
  {
    hide KeywordOf, Role, Upper;
  }

  /** A relation of one word. */
  lemma WordRelation(a: Atom, trail: Expr, inFrom: bool, at: nat)
    requires IsPlainWord(a) && WfExpr(trail, QUIET, inFrom, false, true) && !Starts(PrintExpr(trail), '.')
    ensures var r := Named([], a, [], trail);
      && PrintRelation(r) == [a] + PrintExpr(trail) && WfRelation(r, inFrom, true, true)
      && RelationSlots(r, at, inFrom, true, true) == ExprSlots(trail, at + 1, inFrom, false)
  {
    hide KeywordOf, Role, Upper, PrintExpr, WfExpr, ExprSlots;
    var r := Named([], a, [], trail);
    assert PrintParts([]) == [];
    assert PrintBody(r) == [a] + [] == [a];
    assert PrintRelation(r) == [] + [a] + PrintExpr(trail);
    assert BodySlots(r, at, true, true) == [];
    assert WfBody(r, true, true);
  }

  lemma ListMore(atoms: seq<Atom>)
    requires IsListJoin(atoms)
    ensures var more := ListCore(atoms).clause.relations.more;
      && PrintMore(more) == atoms[4..18] && WfMore(more, true, false, true)
      && MoreSlots(more, 4, true, false, true) == [Slot(12, "a.b.c", true, false)]
  {
    hide KeywordOf, Role, PrintExpr, WfExpr, ExprSlots, PrintRelation, WfRelation, RelationSlots, NameAtoms, Upper,
      IsPlainWord;
    var more := ListCore(atoms).clause.relations.more;
    ListTrail(atoms);
    ListLeaves(atoms);
    OnNoDot(atoms[6]);
    assert atoms[6..18][0] == atoms[6];
    WordRelation(atoms[5], more.relation.trail, true, 5);
    SliceCons(atoms, 5, 18);
    SliceCons(atoms, 4, 18);
    var dotted := EndsPoint(PrintRelation(more.relation));
    assert PrintMore(Done) == [] && WfMore(Done, true, dotted, true) && MoreSlots(Done, 18, true, dotted, true) == [];
    assert atoms[4..18] + [] == atoms[4..18];
  }

  lemma OnNoDot(a: Atom)
    requires IsKeyword(a, On)
    ensures !IsSymbol(a, '.')
  {
  }

  lemma ListFrom(atoms: seq<Atom>)
    requires IsListJoin(atoms)
    ensures var clause := ListCore(atoms).clause;
      && PrintFrom(clause) == atoms[2..18] && WfFrom(clause, false, true, true)
      && FromSlots(clause, 2, false, true) == [Slot(12, "a.b.c", true, false)]
  {
    hide KeywordOf, Role, PrintExpr, WfExpr, ExprSlots, PrintRelation, WfRelation, RelationSlots, PrintMore, WfMore,
      MoreSlots, NameAtoms, Upper, IsPlainWord;
    var clause := ListCore(atoms).clause;
    ListMore(atoms);
    NilExpr(QUIET, true, false, 4);
    WordRelation(atoms[3], Nil, true, 3);
    PlainNoDot(atoms[3]);
    SliceCons(atoms, 3, 18);
    SliceCons(atoms, 2, 18);
    assert PrintRelation(clause.relations.relation) == [atoms[3]] + [] == [atoms[3]];
    assert RelationsSlots(clause.relations, 3, true, true, true) == [] + [Slot(12, "a.b.c", true, false)];
  }

  lemma PlainNoDot(a: Atom)
    requires IsPlainWord(a)
    ensures !IsSymbol(a, '.')
  {
    hide KeywordOf, Role, Upper;
  }

  /** A SELECT of one token and a FROM list. */
  lemma OneItemCore(atoms: seq<Atom>, clause: FromClause, slots: seq<Slot>)
    requires |atoms| > 2 && IsKeyword(atoms[0], Select) && IsLeaf(atoms[1]) && !IsTrim(atoms[1])
    requires !IsKeyword(atoms[1], Distinct) && clause.FromList?
    requires PrintFrom(clause) == atoms[2..] && WfFrom(clause, false, true, true) && FromSlots(clause, 2, false, true) == slots
    ensures var core := SelectCore(atoms[0], Cons(Leaf(atoms[1]), Nil), clause);
      WfCore(core, false, false, true) && PrintCore(core) == atoms && CoreSlots(core, 0, false, false) == slots
  {
    hide KeywordOf, Role, PrintExpr, PrintFrom, WfExpr, WfFrom, ExprSlots, FromSlots, FromEnd, Upper;
    var core := SelectCore(atoms[0], Cons(Leaf(atoms[1]), Nil), clause);
    LeafExpr(atoms[1], LIST, 1);
    var x := PrintExpr(core.items);
    LeafNoDot(atoms[1]);
    assert !Starts(x, '.') && !EndsPoint(x) && !EndsTest(x);
    assert [atoms[0]] + x + atoms[2..] == atoms;
    assert CoreSlots(core, 0, false, false) == [] + slots;
  }

  lemma LeafNoDot(a: Atom)
    requires IsLeaf(a)
    ensures !IsSymbol(a, '.')
  {
    hide KeywordOf, Role;
  }

  lemma PlainIsLeaf(a: Atom)
    requires IsPlainWord(a) || IsSymbol(a, '*')
    ensures IsLeaf(a) && !IsTrim(a) && !IsKeyword(a, Distinct)
  {
    hide KeywordOf, Role, Upper;
  }

  ghost predicate IsCall(atoms: seq<Atom>) {
    && |atoms| == 11 && IsKeyword(atoms[0], Select) && IsSymbol(atoms[1], '*') && IsKeyword(atoms[2], From)
    && NameAtoms(atoms, 3) && IsSymbol(atoms[8], '(') && IsNumber(atoms[9]) && IsSymbol(atoms[10], ')')
  }

  function CallCore(atoms: seq<Atom>): Core
    requires |atoms| == 11
  {
    var trail := Cons(Group(atoms[8], Cons(Leaf(atoms[9]), Nil), atoms[10], []), Nil);
    var name := Named([], atoms[3], [Part(atoms[4], atoms[5]), Part(atoms[6], atoms[7])], trail);
    SelectCore(atoms[0], Cons(Leaf(atoms[1]), Nil), FromList(atoms[2], Relations(name, Done)))
  }

  lemma CallTrail(atoms: seq<Atom>)
    requires IsCall(atoms)
    ensures var trail := CallCore(atoms).clause.relations.relation.trail;
      && PrintExpr(trail) == atoms[8..11] && WfExpr(trail, QUIET, true, false, true)
      && ExprSlots(trail, 8, true, false) == []
  {
    hide KeywordOf, Role, PrintExpr, WfExpr, ExprSlots, ExprDue, Upper, NameAtoms;
    var item := CallCore(atoms).clause.relations.relation.trail.item;
    LeafExpr(atoms[9], GroupSpot([atoms[9]], false), 9);
    NilExpr(QUIET, true, false, 11);
    ConsExpr(item, Nil, QUIET, true, false, 8);
    assert Enclosed(atoms[8], [atoms[9]], atoms[10]) + [] == atoms[8..11];
    assert PrintItem(item) == atoms[8..11] && WfItem(item, QUIET, true, false, true) && MayFollow(item, Nil, QUIET);
  }

  lemma CallRelation(atoms: seq<Atom>)
    requires IsCall(atoms)
    ensures var r := CallCore(atoms).clause.relations.relation;
      && PrintRelation(r) == atoms[3..11] && WfRelation(r, true, true, true) && !EndsPoint(PrintRelation(r))
      && RelationSlots(r, 3, true, true, true) == [Slot(3, "a.b.c", true, false)]
  {
    hide KeywordOf, Role, PrintExpr, WfExpr, ExprSlots, IsHead, Upper;
    var r := CallCore(atoms).clause.relations.relation;
    CallTrail(atoms);
    var xs := atoms[3..8];
    assert xs == [atoms[3], atoms[4], atoms[5], atoms[6], atoms[7]];
    TwoParts(r.parts[0], r.parts[1]);
    assert PrintBody(r) == xs;
    assert PrintRelation(r) == [] + xs + atoms[8..11] == atoms[3..11];
    assert atoms[8..11][0] == atoms[8] && atoms[3..11][7] == atoms[10];
    assert WfBody(r, true, true) && !IsTableName(r);
    assert BodySlots(r, 3, true, true) == [Slot(3, "a.b.c", true, false)];
  }

  // ---------------------------------------------------------------- the texts

  /** The tokens of `a.b.c` at index `i`. */
  lemma NamesThere(tokens: seq<SqlToken>, i: nat)
    requires i + 4 < |tokens| && tokens[i..i + 5] == NameList(tokens[i].start)
    ensures NameAtoms(AtomsOf(tokens), i) && tokens[i + 4].end == tokens[i].start + 5
  {
    hide KeywordOf, Role;
    OneLetter('a');
    var atoms, at := AtomsOf(tokens), tokens[i].start;
    var ts := tokens[i..i + 5];
    assert ts[0] == tokens[i] && ts[1] == tokens[i + 1] && ts[2] == tokens[i + 2] && ts[3] == tokens[i + 3]
           && ts[4] == tokens[i + 4];
    assert atoms[i] == AtomAt(tokens, i) && atoms[i + 1] == AtomAt(tokens, i + 1) && atoms[i + 2] == AtomAt(tokens, i + 2)
           && atoms[i + 3] == AtomAt(tokens, i + 3) && atoms[i + 4] == AtomAt(tokens, i + 4);
    var xs := atoms[i..i + 5];
    assert xs[0] == atoms[i] && xs[1] == atoms[i + 1] && xs[2] == atoms[i + 2] && xs[3] == atoms[i + 3]
           && xs[4] == atoms[i + 4];
    assert !IsNumber(atoms[i]);
  }

  /** A text with one name the rewriter takes for a relation. */
  lemma OneRewritten(sql: string, core: Core, i: nat, registry: map<string, string>)
    requires WfCore(core, false, false, true) && AtomsOf(TokensOf(sql)) == PrintCore(core) && "a.b.c" in registry
    requires i + 4 < |TokensOf(sql)| && exists meant :: CoreSlots(core, 0, false, false) == [Slot(i, "a.b.c", true, meant)]
    ensures var start, end := TokensOf(sql)[i].start, TokensOf(sql)[i + 4].end;
      start <= end <= |sql| && Rewrite(sql, registry) == sql[..start] + DeltaScan(registry["a.b.c"]) + sql[end..]
  {
    hide Rewrite, KeywordOf, Role, PrintCore, WfCore, CoreSlots, TokensOf, EditsOk, Substitute, DeltaScan,
      PrintQuery, WfQuery, QuerySlots;
    var q := Single(Term(core, NoTail));
    CoreQuery(core);
    assert PrintQuery(q) + [] == PrintQuery(q);
    GrammarRewrite(sql, q, [], registry, true);
    var meant :| CoreSlots(core, 0, false, false) == [Slot(i, "a.b.c", true, meant)];
    TakenOne(Slot(i, "a.b.c", true, meant), registry);
    var e := EditOf(TokensOf(sql), registry, Mark(i, "a.b.c"));
    assert EditsOf(TokensOf(sql), registry, [Mark(i, "a.b.c")]) == [e];
    SubstituteOne(sql, e);
  }

  /** A relation behind a number with a trailing point is not replaced, whatever is registered. */
  lemma TrailingPointText(registry: map<string, string>)
    ensures Rewrite("SELECT 1. FROM a.b.c", registry) == "SELECT 1. FROM a.b.c"
  {
    hide Rewrite, KeywordOf, Role, PrintQuery, WfQuery, QuerySlots, TokensOf, EditsOk, Substitute, NameAtoms,
      PrintCore, WfCore, CoreSlots, Upper;
    var sql, tokens := "SELECT 1. FROM a.b.c", PointTokens();
    var atoms := AtomsOf(tokens);
    PointLexes();
    SelectKeyword();
    FromKeyword();
    OneLetter('1');
    assert tokens[4..9] == NameList(15) && tokens[4].start == 15;
    NamesThere(tokens, 4);
    PointIs(atoms);
    CoreQuery(PointCore(atoms));
    var q := Single(Term(PointCore(atoms), NoTail));
    assert PrintQuery(q) + [] == atoms;
    GrammarRewrite(sql, q, [], registry, true);
    TakenOne(Slot(4, "a.b.c", false, true), registry);
    SubstituteNone(sql);
  }

  /** A column behind the FROM that begins a call is replaced as if it were a relation. */
  lemma TrimFromText(registry: map<string, string>)
    requires "a.b.c" in registry
    ensures Rewrite("SELECT trim(FROM a.b.c)", registry) == "SELECT trim(FROM " + DeltaScan(registry["a.b.c"]) + ")"
  {
    hide Rewrite, KeywordOf, Role, TokensOf, DeltaScan, NameAtoms, PrintCore, WfCore, CoreSlots, Upper;
    var sql, tokens := "SELECT trim(FROM a.b.c)", TrimTokens();
    TrimLexes();
    SelectKeyword();
    FromKeyword();
    TrimIsTrim();
    assert tokens[4..9] == NameList(17) && tokens[4].start == 17;
    NamesThere(tokens, 4);
    TrimIs(AtomsOf(tokens));
    OneRewritten(sql, TrimCore(AtomsOf(tokens)), 4, registry);
    assert sql[..17] == "SELECT trim(FROM " && sql[22..] == ")";
  }

  /** A column behind a comma in brackets of a join condition is replaced as if it were a relation. */
  lemma ListInJoinText(registry: map<string, string>)
    requires "a.b.c" in registry
    ensures Rewrite("SELECT x FROM t JOIN u ON v = [w, a.b.c]", registry) ==
            "SELECT x FROM t JOIN u ON v = [w, " + DeltaScan(registry["a.b.c"]) + "]"
  {
    hide Rewrite, KeywordOf, Role, TokensOf, DeltaScan, NameAtoms, PrintCore, WfCore, CoreSlots, Upper, PrintFrom,
      WfFrom, FromSlots;
    var sql, tokens := "SELECT x FROM t JOIN u ON v = [w, a.b.c]", ListTokens();
    var atoms := AtomsOf(tokens);
    ListLexes();
    ListWords(tokens);
    ListFrom(atoms);
    PlainIsLeaf(atoms[1]);
    OneItemCore(atoms, ListCore(atoms).clause, [Slot(12, "a.b.c", true, false)]);
    OneRewritten(sql, ListCore(atoms), 12, registry);
    ListCut();
  }

  lemma ListCut()
    ensures var sql := "SELECT x FROM t JOIN u ON v = [w, a.b.c]";
      |sql| == 40 && sql[..34] == "SELECT x FROM t JOIN u ON v = [w, " && sql[39..] == "]"
  {
  }

  lemma ListWords(tokens: seq<SqlToken>)
    requires tokens == ListTokens()
    ensures IsListJoin(AtomsOf(tokens)) && |tokens| == 18 && tokens[12].start == 34 && tokens[16].end == 39
  {
    hide KeywordOf, Role, NameAtoms, Upper, IsPlainWord;
    SelectKeyword();
    FromKeyword();
    JoinKeyword();
    OnKeyword();
    ListPlain(AtomsOf(tokens));
    assert tokens[12..17] == NameList(34) && tokens[12].start == 34;
    NamesThere(tokens, 12);
  }

  lemma ListPlain(atoms: seq<Atom>)
    requires |atoms| == 18 && forall k | k in {1, 3, 5, 7, 10} :: atoms[k].kind == WordToken
    requires atoms[1].value == "x" && atoms[3].value == "t" && atoms[5].value == "u"
    requires atoms[7].value == "v" && atoms[10].value == "w"
    ensures forall k | k in {1, 3, 5, 7, 10} :: IsPlainWord(atoms[k])
  {
    hide KeywordOf, Role, Upper;
    OneLetter('x');
    OneLetter('t');
    OneLetter('u');
    OneLetter('v');
    OneLetter('w');
  }

  lemma CallIs(atoms: seq<Atom>)
    requires IsCall(atoms)
    ensures var core := CallCore(atoms);
      && WfCore(core, false, false, true) && PrintCore(core) == atoms
      && CoreSlots(core, 0, false, false) == [Slot(3, "a.b.c", true, false)]
  {
    hide KeywordOf, Role, NameAtoms, PrintCore, WfCore, CoreSlots, Upper, PrintFrom, WfFrom, FromSlots,
      PrintRelation, WfRelation, RelationSlots, IsNumber, IsLeaf, FromEnd;
    CallRelation(atoms);
    assert atoms[3..11] != [];
    OneRelation(atoms[2], CallCore(atoms).clause.relations.relation, 2, true);
    PlainIsLeaf(atoms[1]);
    assert [atoms[2]] + atoms[3..11] == atoms[2..];
    OneItemCore(atoms, CallCore(atoms).clause, [Slot(3, "a.b.c", true, false)]);
  }

  lemma CallWords(tokens: seq<SqlToken>)
    requires tokens == CallTokens()
    ensures IsCall(AtomsOf(tokens)) && |tokens| == 11 && tokens[3].start == 14 && tokens[7].end == 19
  {
    hide KeywordOf, Role, NameAtoms, Upper;
    SelectKeyword();
    FromKeyword();
    OneLetter('1');
    assert tokens[3..8] == NameList(14) && tokens[3].start == 14;
    NamesThere(tokens, 3);
  }

  /** A table function with a registered name is replaced together with its name. */
  lemma CallText(registry: map<string, string>)
    requires "a.b.c" in registry
    ensures Rewrite("SELECT * FROM a.b.c(1)", registry) == "SELECT * FROM " + DeltaScan(registry["a.b.c"]) + "(1)"
  {
    hide Rewrite, TokensOf, DeltaScan, IsCall, PrintCore, WfCore, CoreSlots;
    var sql, tokens := "SELECT * FROM a.b.c(1)", CallTokens();
    CallLexes();
    CallWords(tokens);
    CallIs(AtomsOf(tokens)) by {
      assert IsCall(AtomsOf(tokens));
    }
    CallLength(AtomsOf(tokens));
    OneRewritten(sql, CallCore(AtomsOf(tokens)), 3, registry);
    assert sql[..14] == "SELECT * FROM " && sql[19..] == "(1)";
  }

  lemma CallLength(atoms: seq<Atom>)
    requires IsCall(atoms)
    ensures |atoms| == 11
  {
    hide NameAtoms, KeywordOf, Role;
  }
}
