/**
 * `_rewrite_sql_for_duckdb`: a stack of scopes walks the tokens of a statement and marks the
 * registered three-part names in relation position, which are then spliced out of the text.
 */
module Rewriter {
  import opened Text
  import opened SqlLexer
  import opened Backticks
  import opened SqlTokens
  import LexLaws

  // ---------------------------------------------------------------- keywords

  datatype Keyword =
    | Select | From | Join | Pivot | Using | On | SetOperator | Values | ClauseEnd | Modifier
    | DeleteOrMerge | Is | Not | Distinct | With | Plain

  /** The class of a word, upper or lower case. */
  function KeywordOf(word: string): Keyword {
    match Upper(word)
    case "SELECT" => Select
    case "FROM" => From
    case "JOIN" => Join
    case "PIVOT" => Pivot
    case "PIVOT_WIDER" => Pivot
    case "UNPIVOT" => Pivot
    case "USING" => Using
    case "ON" => On
    case "UNION" => SetOperator
    case "INTERSECT" => SetOperator
    case "EXCEPT" => SetOperator
    case "VALUES" => Values
    case "FETCH" => ClauseEnd
    case "GROUP" => ClauseEnd
    case "HAVING" => ClauseEnd
    case "LIMIT" => ClauseEnd
    case "OFFSET" => ClauseEnd
    case "ORDER" => ClauseEnd
    case "QUALIFY" => ClauseEnd
    case "RETURNING" => ClauseEnd
    case "WHERE" => ClauseEnd
    case "WINDOW" => ClauseEnd
    case "LATERAL" => Modifier
    case "ONLY" => Modifier
    case "DELETE" => DeleteOrMerge
    case "MERGE" => DeleteOrMerge
    case "IS" => Is
    case "NOT" => Not
    case "DISTINCT" => Distinct
    case "WITH" => With
    case _ => Plain
  }

  // ---------------------------------------------------------------- tokens without positions

  /** A token and whether the next one touches it. */
  datatype Atom = Atom(kind: TokenKind, value: string, glued: bool)

  function AtomAt(tokens: seq<SqlToken>, k: nat): Atom
    requires k < |tokens|
  {
    Atom(tokens[k].kind, tokens[k].value, k + 1 < |tokens| && tokens[k].end == tokens[k + 1].start)
  }

  function AtomsOf(tokens: seq<SqlToken>): (atoms: seq<Atom>)
    ensures |atoms| == |tokens|
    ensures forall k | 0 <= k < |tokens| :: atoms[k] == AtomAt(tokens, k)
  {
    seq(|tokens|, k requires 0 <= k < |tokens| => AtomAt(tokens, k))
  }

  predicate IsSymbol(a: Atom, c: char) { a.kind == SymbolToken && a.value == [c] }

  predicate IsName(a: Atom) { a.kind == WordToken || a.kind == QuotedIdentifier }

  predicate IsKeyword(a: Atom, k: Keyword) { a.kind == WordToken && KeywordOf(a.value) == k }

  /** A three-part name spelled without gaps, and not a part of a longer one, starts at `i`. */
  predicate IsExternalName(atoms: seq<Atom>, i: nat) {
    && i + 4 < |atoms|
    && IsName(atoms[i]) && IsSymbol(atoms[i + 1], '.') && atoms[i].glued && atoms[i + 1].glued
    && IsName(atoms[i + 2]) && IsSymbol(atoms[i + 3], '.') && atoms[i + 2].glued && atoms[i + 3].glued
    && IsName(atoms[i + 4])
    && !(i + 5 < |atoms| && IsSymbol(atoms[i + 5], '.') && atoms[i + 4].glued)
  }

  function ExternalName(atoms: seq<Atom>, i: nat): string
    requires i + 4 < |atoms|
  {
    atoms[i].value + "." + atoms[i + 2].value + "." + atoms[i + 4].value
  }

  // ---------------------------------------------------------------- scopes

  datatype Scope = Scope(
    inFrom: bool, expectRelation: bool, queryStarted: bool, allowBareFrom: bool,
    writeKind: Option<string>, writeSourcePending: bool)

  const TOP_SCOPE := Scope(false, false, false, true, None, false)

  /** A marked name: its first token and its full name; it has five tokens. */
  datatype Mark = Mark(first: nat, name: string)

  datatype State = State(index: nat, scopes: seq<Scope>, marks: seq<Mark>)

  const INITIAL := State(0, [TOP_SCOPE], [])

  /** The scope a word leaves behind, by the keyword branches in their order. */
  function ScopeAfterWord(scope: Scope, word: string, qualified: bool, distinctFrom: bool): Scope {
    var keyword := if qualified then Plain else KeywordOf(word);
    var s :=
      if keyword == DeleteOrMerge && scope.writeKind.None? && !scope.queryStarted && !scope.inFrom then
        scope.(writeKind := Some(Upper(word)), writeSourcePending := true)
      else scope;
    if keyword == Select then
      s.(queryStarted := true, allowBareFrom := false, inFrom := false, expectRelation := false)
    else if keyword == From || keyword == Join then
      if keyword == Join || (!distinctFrom && (s.queryStarted || s.allowBareFrom)) then
        s.(inFrom := true, expectRelation := true)
      else s
    else if keyword == Pivot && !s.queryStarted && (!s.inFrom || s.expectRelation) then
      s.(inFrom := true, expectRelation := true, queryStarted := true, allowBareFrom := false)
    else if keyword == Using && s.writeSourcePending then
      s.(inFrom := true, expectRelation := true, writeSourcePending := false)
    else if keyword == On || keyword == Using then
      s.(expectRelation := false)
    else if keyword == SetOperator then
      s.(inFrom := false, expectRelation := false, queryStarted := false, allowBareFrom := true)
    else if keyword == Values && ((s.inFrom && !s.expectRelation) || (!s.queryStarted && !s.inFrom)) then
      s
    else if keyword == ClauseEnd || keyword == Values then
      s.(inFrom := false, expectRelation := false, allowBareFrom := false)
    else if s.expectRelation && KeywordOf(word) == Modifier then
      s
    else
      s.(expectRelation := false)
  }

  /** The word at `i` follows a dot. */
  predicate IsQualifiedPart(atoms: seq<Atom>, i: nat) {
    0 < i <= |atoms| && IsSymbol(atoms[i - 1], '.')
  }

  /** The word at `i` is the FROM of `IS DISTINCT FROM` or `IS NOT DISTINCT FROM`. */
  predicate IsDistinctFrom(atoms: seq<Atom>, i: nat)
    requires i < |atoms|
  {
    && IsKeyword(atoms[i], From)
    && i >= 2 && IsKeyword(atoms[i - 1], Distinct)
    && (|| IsKeyword(atoms[i - 2], Is)
        || (IsKeyword(atoms[i - 2], Not) && i >= 3 && IsKeyword(atoms[i - 3], Is)))
  }

  function Top(scopes: seq<Scope>): Scope
    requires scopes != []
  {
    scopes[|scopes| - 1]
  }

  function WithTop(scopes: seq<Scope>, top: Scope): (r: seq<Scope>)
    requires scopes != []
    ensures |r| == |scopes| && Top(r) == top && r[..|r| - 1] == scopes[..|scopes| - 1]
  {
    scopes[..|scopes| - 1] + [top]
  }

  /** What one round of the loop does: where it moves, to which scopes, and the registered name it found. */
  datatype Move = Move(index: nat, scopes: seq<Scope>, found: Option<string>)

  /** One round of the rewriter's loop at token `i`. */
  function MoveAt(atoms: seq<Atom>, registry: map<string, string>, i: nat, scopes: seq<Scope>): (m: Move)
    requires i < |atoms| && scopes != []
    ensures i < m.index <= |atoms| && m.scopes != []
    ensures m.found.Some? ==>
              && m.index == i + 5 && IsExternalName(atoms, i)
              && m.found.value == ExternalName(atoms, i) && m.found.value in registry
  {
    var a := atoms[i];
    var scope := Top(scopes);
    if IsSymbol(a, '(') then
      var group := scope.expectRelation;
      var fromFirst := i + 1 < |atoms| && (IsKeyword(atoms[i + 1], From) || IsKeyword(atoms[i + 1], With));
      Move(i + 1,
           WithTop(scopes, scope.(expectRelation := false)) + [Scope(group, group, false, fromFirst, None, false)],
           None)
    else if IsSymbol(a, ')') then
      if |scopes| > 1 then
        var rest := scopes[..|scopes| - 1];
        Move(i + 1, WithTop(rest, Top(rest).(expectRelation := false)), None)
      else Move(i + 1, scopes, None)
    else if IsSymbol(a, ',') then
      Move(i + 1, if scope.inFrom then WithTop(scopes, scope.(expectRelation := true)) else scopes, None)
    else if IsSymbol(a, ';') then
      Move(i + 1, WithTop(scopes, TOP_SCOPE), None)
    else if scope.expectRelation && IsName(a) && IsExternalName(atoms, i) then
      var name := ExternalName(atoms, i);
      Move(i + 5, WithTop(scopes, scope.(expectRelation := false)), if name in registry then Some(name) else None)
    else if a.kind == WordToken then
      Move(i + 1,
           WithTop(scopes, ScopeAfterWord(scope, a.value, IsQualifiedPart(atoms, i), IsDistinctFrom(atoms, i))),
           None)
    else
      Move(i + 1,
           if a.kind == SymbolToken then scopes else WithTop(scopes, scope.(expectRelation := false)),
           None)
  }

  function Step(atoms: seq<Atom>, registry: map<string, string>, st: State): (next: State)
    requires st.index < |atoms| && st.scopes != []
    ensures st.index < next.index <= |atoms| && next.scopes != []
  {
    var m := MoveAt(atoms, registry, st.index, st.scopes);
    State(m.index, m.scopes, if m.found.Some? then st.marks + [Mark(st.index, m.found.value)] else st.marks)
  }

  /** The loop, run until its index reaches `stop`. */
  function RunTo(atoms: seq<Atom>, registry: map<string, string>, st: State, stop: nat): (r: State)
    requires st.scopes != [] && stop <= |atoms|
    ensures r.scopes != [] && r.index >= stop
    ensures st.index <= |atoms| ==> r.index <= |atoms|
    decreases |atoms| - st.index
  {
    if st.index >= stop then st else RunTo(atoms, registry, Step(atoms, registry, st), stop)
  }

  function Marks(atoms: seq<Atom>, registry: map<string, string>): seq<Mark> {
    RunTo(atoms, registry, INITIAL, |atoms|).marks
  }

  // ---------------------------------------------------------------- what is marked

  /** Marks stand at registered names, in order, without overlap, all before token `bound`. */
  ghost predicate MarksOk(atoms: seq<Atom>, registry: map<string, string>, marks: seq<Mark>, bound: nat) {
    && (forall k | 0 <= k < |marks| ::
          && IsExternalName(atoms, marks[k].first) && marks[k].name == ExternalName(atoms, marks[k].first)
          && marks[k].name in registry
          && marks[k].first + 5 <= bound)
    && (forall j, k | 0 <= j < k < |marks| :: marks[j].first + 5 <= marks[k].first)
  }

  lemma StepMarks(atoms: seq<Atom>, registry: map<string, string>, st: State)
    requires st.index < |atoms| && st.scopes != [] && MarksOk(atoms, registry, st.marks, st.index)
    ensures var next := Step(atoms, registry, st);
            MarksOk(atoms, registry, next.marks, next.index)
  {
    hide MoveAt, ExternalName;
  }

  lemma {:induction false} RunMarks(atoms: seq<Atom>, registry: map<string, string>, st: State, stop: nat)
    requires st.scopes != [] && stop <= |atoms| && MarksOk(atoms, registry, st.marks, st.index)
    ensures var r := RunTo(atoms, registry, st, stop);
            MarksOk(atoms, registry, r.marks, r.index)
    decreases |atoms| - st.index
  {
    if st.index < stop {
      hide Step, MarksOk;
      StepMarks(atoms, registry, st);
      RunMarks(atoms, registry, Step(atoms, registry, st), stop);
    }
  }

  // ---------------------------------------------------------------- substitution

  datatype Edit = Edit(start: nat, end: nat, text: string)

  ghost predicate EditsOk(sql: string, at: nat, edits: seq<Edit>) {
    && at <= |sql|
    && (forall k | 0 <= k < |edits| :: at <= edits[k].start < edits[k].end <= |sql|)
    && (forall j, k | 0 <= j < k < |edits| :: edits[j].end <= edits[k].start)
  }

  /** Left to right: the text from `at` on, each edited span replaced and all else verbatim. */
  ghost function Substitute(sql: string, at: nat, edits: seq<Edit>): string
    requires EditsOk(sql, at, edits)
    decreases |edits|
  {
    if edits == [] then sql[at..]
    else sql[at..edits[0].start] + edits[0].text + Substitute(sql, edits[0].end, edits[1..])
  }

  /** The first edited span and what comes after it. */
  lemma SubstituteCons(sql: string, at: nat, edits: seq<Edit>) returns (t: string)
    requires EditsOk(sql, at, edits) && edits != []
    ensures EditsOk(sql, edits[0].end, edits[1..])
    ensures t == edits[0].text + Substitute(sql, edits[0].end, edits[1..])
    ensures at <= edits[0].start <= |sql| && Substitute(sql, at, edits) == sql[at..edits[0].start] + t
  {
    t := edits[0].text + Substitute(sql, edits[0].end, edits[1..]);
  }

  lemma Reassociate(x: string, y: string, z: string)
    ensures x + y + z == x + (y + z)
  {
  }

  lemma SubstituteFrom(sql: string, a: nat, b: nat, edits: seq<Edit>)
    requires EditsOk(sql, a, edits) && EditsOk(sql, b, edits)
    requires a <= b <= |sql| && (edits != [] ==> b <= edits[0].start)
    ensures Substitute(sql, a, edits) == sql[a..b] + Substitute(sql, b, edits)
  {
    SplitAt(sql, a, b);
    if edits != [] {
      hide Substitute, EditsOk;
      var t := SubstituteCons(sql, a, edits);
      var t' := SubstituteCons(sql, b, edits);
      SliceSplit(sql, a, b, edits[0].start);
      Reassociate(sql[a..b], sql[b..edits[0].start], t);
    }
  }

  /** Splicing the edits right to left, as the source does, is the left-to-right substitution. */
  method Splice(sql: string, edits: seq<Edit>) returns (result: string)
    requires EditsOk(sql, 0, edits)
    ensures result == Substitute(sql, 0, edits)
  {
    result := sql;
    var k := |edits|;
    assert edits[k..] == [];
    assert sql[0..] == sql;
    while k > 0
      invariant 0 <= k <= |edits|
      invariant EditsOk(sql, 0, edits[k..])
      invariant result == Substitute(sql, 0, edits[k..])
    {
      k := k - 1;
      var e := edits[k];
      SpliceStep(sql, e, edits[k + 1..]);
      assert edits[k..] == [e] + edits[k + 1..];
      result := result[..e.start] + e.text + result[e.end..];
    }
    assert edits[0..] == edits;
  }

  lemma SpliceStep(sql: string, e: Edit, rest: seq<Edit>)
    requires EditsOk(sql, 0, [e] + rest)
    ensures EditsOk(sql, 0, rest)
    ensures e.start <= e.end <= |Substitute(sql, 0, rest)|
    ensures
      var r := Substitute(sql, 0, rest);
      r[..e.start] + e.text + r[e.end..] == Substitute(sql, 0, [e] + rest)
  {
    EditsTail(sql, e, rest);
    SubstituteFrom(sql, 0, e.end, rest);
    var r, t := Substitute(sql, 0, rest), Substitute(sql, e.end, rest);
    assert ([e] + rest)[1..] == rest;
    assert Substitute(sql, 0, [e] + rest) == sql[0..e.start] + e.text + t;
    hide Substitute, EditsOk;
    assert r == sql[0..e.end] + t;
    assert r[e.end..] == t;
    assert r[..e.start] == sql[0..e.end][..e.start] == sql[0..e.start];
  }

  lemma EditsTail(sql: string, e: Edit, rest: seq<Edit>)
    requires EditsOk(sql, 0, [e] + rest)
    ensures EditsOk(sql, 0, rest) && EditsOk(sql, e.end, rest)
    ensures e.start < e.end <= |sql|
    ensures rest != [] ==> e.end <= rest[0].start
  {
    var all := [e] + rest;
    assert all[0] == e;
    forall k | 0 <= k < |rest| ensures rest[k] == all[k + 1] && e.end <= rest[k].start {
    }
  }

  // ---------------------------------------------------------------- from tokens to text

  /** Tokens lie in the text one after the other. */
  ghost predicate Ordered(tokens: seq<SqlToken>, at: nat, end: nat) {
    && (forall k | 0 <= k < |tokens| :: at <= tokens[k].start < tokens[k].end <= end)
    && (forall j, k | 0 <= j < k < |tokens| :: tokens[j].end <= tokens[k].start)
  }

  lemma {:induction false} TokenViewOrdered(pieces: seq<Piece>, at: nat)
    requires forall p | p in pieces :: WellQuoted(p) && p.text != ""
    ensures Ordered(TokenView(pieces, at), at, at + |Texts(pieces)|)
  {
    if pieces != [] {
      TokenViewOrdered(pieces[1..], at + |pieces[0].text|);
    }
  }

  lemma {:induction false} PiecesNotEmpty(c: Context, s: string)
    ensures forall p | p in Lex(c, s) :: WellQuoted(p) && p.text != ""
    decreases |s|
  {
    if s != "" {
      hide First, Lex, Debacktick;
      var p, c', r := Cut(c, s);
      PiecesNotEmpty(c', r);
    } else {
      LexHead(c, s);
    }
  }

  /** The tokens of a text, as the rewriter's tokenizer returns them. */
  function TokensOf(sql: string): (tokens: seq<SqlToken>)
    ensures Ordered(tokens, 0, |sql|)
  {
    LexIsWellQuoted(START, sql);
    PiecesNotEmpty(START, sql);
    TokenViewOrdered(Lex(START, sql), 0);
    LexSpells(START, sql);
    TokenView(Lex(START, sql), 0)
  }

  /** The replacement text for a storage location. */
  function DeltaScan(location: string): string {
    "delta_scan('" + Double(location, '\'') + "')"
  }

  /** The replacement is a call whose one argument is a literal that stands for the location. */
  lemma DeltaScanReads(before: string, location: string, rest: string)
    requires !LexLaws.BehindName(before)
    ensures
      var literal := "'" + Double(location, '\'') + "'";
      && Lex(ContextAfter(START, before), DeltaScan(location) + rest) ==
           [Piece(Word, "delta_scan"), Piece(Symbol, "("), Piece(Literal, literal), Piece(Symbol, ")")]
           + Lex(ContextAfter(START, before + DeltaScan(location)), rest)
      && Undouble(literal[1..|literal| - 1], '\'') == location
  {
    hide Lex, ContextAfter, Double, Undouble;
    var d := Double(location, '\'');
    DeltaScanShows(location);
    DeltaScanStands(before, location, rest);
    LexLaws.ItemsRead(before, DeltaItems(location), rest);
    UndoubleDouble(location, '\'');
    assert ("'" + d + "'")[1..|d| + 1] == d;
  }

  function DeltaItems(location: string): seq<LexLaws.Item> {
    [LexLaws.WordItem("delta_scan"), LexLaws.Mark('('), LexLaws.PlainString(location), LexLaws.Mark(')')]
  }

  lemma ItemsCons(i: LexLaws.Item, more: seq<LexLaws.Item>, before: string, rest: string)
    ensures LexLaws.ShowAll([i] + more) == LexLaws.Show(i) + LexLaws.ShowAll(more)
    ensures LexLaws.PiecesOf([i] + more) == LexLaws.Pieces(i) + LexLaws.PiecesOf(more)
    ensures LexLaws.ItemsOk(before, [i] + more, rest) <==>
      LexLaws.ItemOk(before, i, LexLaws.ShowAll(more) + rest) && LexLaws.ItemsOk(before + LexLaws.Show(i), more, rest)
  {
    hide LexLaws.Show, LexLaws.Pieces, LexLaws.ItemOk;
    assert ([i] + more)[1..] == more;
  }

  /** The replacement, printed from its tokens. */
  lemma DeltaScanShows(location: string)
    ensures LexLaws.ShowAll(DeltaItems(location)) == DeltaScan(location)
    ensures LexLaws.PiecesOf(DeltaItems(location)) ==
      [Piece(Word, "delta_scan"), Piece(Symbol, "("), Piece(Literal, "'" + Double(location, '\'') + "'"), Piece(Symbol, ")")]
  {
    hide Double, LexLaws.ShowAll, LexLaws.PiecesOf, LexLaws.ItemsOk, LexLaws.ItemOk;
    var i1, i2, i3, i4 := LexLaws.WordItem("delta_scan"), LexLaws.Mark('('), LexLaws.PlainString(location), LexLaws.Mark(')');
    var d := "'" + (Double(location, '\'') + "'");
    NoItems("", "");
    ItemsCons(i4, [], "", "");
    ItemsCons(i3, [i4], "", "");
    ItemsCons(i2, [i3, i4], "", "");
    ItemsCons(i1, [i2, i3, i4], "", "");
    assert [i4] + [] == [i4] && [i3] + [i4] == [i3, i4] && [i2] + [i3, i4] == [i2, i3, i4];
    assert DeltaItems(location) == [i1] + [i2, i3, i4];
    DeltaText(d);
    DeltaLiteral(Double(location, '\''));
  }

  /** Each of its tokens can stand where it does. */
  lemma DeltaScanStands(before: string, location: string, rest: string)
    requires !LexLaws.BehindName(before)
    ensures LexLaws.ItemsOk(before, DeltaItems(location), rest)
  {
    hide Double, LexLaws.ShowAll, LexLaws.PiecesOf, LexLaws.ItemsOk, LexLaws.AllName, LexLaws.Continued;
    var i1, i2, i3, i4 := LexLaws.WordItem("delta_scan"), LexLaws.Mark('('), LexLaws.PlainString(location), LexLaws.Mark(')');
    var d := LexLaws.Show(i3);
    var b2 := before + "delta_scan";
    NoItems(b2 + "(" + d + ")", rest);
    ItemsCons(i4, [], b2 + "(" + d, rest);
    ItemsCons(i3, [i4], b2 + "(", rest);
    ItemsCons(i2, [i3, i4], b2, rest);
    ItemsCons(i1, [i2, i3, i4], before, rest);
    assert [i4] + [] == [i4] && [i3] + [i4] == [i3, i4] && [i2] + [i3, i4] == [i2, i3, i4];
    assert DeltaItems(location) == [i1] + [i2, i3, i4];
    DeltaName();
    assert d[0] == '\'';
  }

  lemma DeltaName()
    ensures LexLaws.AllName("delta_scan") && "delta_scan"[0] != '$'
  {
    var s := "delta_scan";
    assert forall k | 0 <= k < |s| :: 97 <= s[k] as int <= 122 || s[k] as int == 95;
  }

  lemma DeltaLiteral(d: string)
    ensures "'" + d + "'" == "'" + (d + "'")
    ensures "delta_scan(" + ("'" + (d + "'")) + ")" == "delta_scan('" + d + "')"
  {
  }

  lemma NoItems(before: string, rest: string)
    ensures LexLaws.ShowAll([]) == "" && LexLaws.PiecesOf([]) == [] && LexLaws.ItemsOk(before, [], rest)
  {
  }

  lemma DeltaText(d: string)
    ensures "delta_scan" + ("(" + (d + (")" + ""))) == "delta_scan(" + d + ")"
  {
  }

  function EditOf(tokens: seq<SqlToken>, registry: map<string, string>, m: Mark): Edit
    requires m.first + 4 < |tokens| && m.name in registry
  {
    Edit(tokens[m.first].start, tokens[m.first + 4].end, DeltaScan(registry[m.name]))
  }

  function EditsOf(tokens: seq<SqlToken>, registry: map<string, string>, marks: seq<Mark>): (edits: seq<Edit>)
    requires forall k | 0 <= k < |marks| :: marks[k].first + 4 < |tokens| && marks[k].name in registry
    ensures |edits| == |marks|
    ensures forall k | 0 <= k < |marks| :: edits[k] == EditOf(tokens, registry, marks[k])
  {
    seq(|marks|, k requires 0 <= k < |marks| => EditOf(tokens, registry, marks[k]))
  }

  lemma EditsAreOk(sql: string, tokens: seq<SqlToken>, registry: map<string, string>, marks: seq<Mark>, bound: nat)
    requires Ordered(tokens, 0, |sql|) && MarksOk(AtomsOf(tokens), registry, marks, bound)
    ensures forall k | 0 <= k < |marks| :: marks[k].first + 4 < |tokens| && marks[k].name in registry
    ensures EditsOk(sql, 0, EditsOf(tokens, registry, marks))
  {
    var edits := EditsOf(tokens, registry, marks);
    forall k | 0 <= k < |edits| ensures edits[k].start < edits[k].end <= |sql| {
      assert tokens[marks[k].first].end <= tokens[marks[k].first + 4].start;
    }
    forall j, k | 0 <= j < k < |edits| ensures edits[j].end <= edits[k].start {
      assert marks[j].first + 5 <= marks[k].first;
      assert tokens[marks[j].first + 4].end <= tokens[marks[k].first].start;
    }
  }

  /** The marks of a text are at registered names, in order and without overlap. */
  lemma MarksAreOk(atoms: seq<Atom>, registry: map<string, string>)
    ensures MarksOk(atoms, registry, Marks(atoms, registry), |atoms|)
  {
    hide Step;
    RunMarks(atoms, registry, INITIAL, |atoms|);
  }

  /** The rewritten text. */
  ghost function Rewrite(sql: string, registry: map<string, string>): string {
    var tokens := TokensOf(sql);
    var marks := Marks(AtomsOf(tokens), registry);
    MarksAreOk(AtomsOf(tokens), registry);
    EditsAreOk(sql, tokens, registry, marks, |tokens|);
    Substitute(sql, 0, EditsOf(tokens, registry, marks))
  }

  // ---------------------------------------------------------------- the method

  /** `external_name_at`: the name that starts at a token and the index of its last token. */
  method ExternalNameAt(tokens: seq<SqlToken>, index: nat) returns (r: Option<(string, nat)>)
    requires index < |tokens|
    ensures r == if IsExternalName(AtomsOf(tokens), index) then Some((ExternalName(AtomsOf(tokens), index), index + 4))
                 else None
  {
    ghost var atoms := AtomsOf(tokens);
    var parts: seq<string> := [];
    var cursor := index;
    var partIndex := 0;
    while partIndex < 3
      invariant 0 <= partIndex <= 3 && |parts| == partIndex
      invariant cursor == index + 2 * (if partIndex < 3 then partIndex else 2)
      invariant partIndex >= 1 ==> cursor < |tokens|
      invariant partIndex >= 1 ==>
                  && index + 2 < |tokens| && parts[0] == atoms[index].value && IsName(atoms[index])
                  && IsSymbol(atoms[index + 1], '.') && atoms[index].glued && atoms[index + 1].glued
      invariant partIndex >= 2 ==>
                  && index + 4 < |tokens| && parts[1] == atoms[index + 2].value && IsName(atoms[index + 2])
                  && IsSymbol(atoms[index + 3], '.') && atoms[index + 2].glued && atoms[index + 3].glued
      invariant partIndex == 3 ==> parts[2] == atoms[index + 4].value && IsName(atoms[index + 4])
    {
      if cursor >= |tokens| || !(tokens[cursor].kind == WordToken || tokens[cursor].kind == QuotedIdentifier) {
        return None;
      }
      parts := parts + [tokens[cursor].value];
      if partIndex < 2 {
        var dot, next := cursor + 1, cursor + 2;
        if next >= |tokens| || tokens[dot].kind != SymbolToken || tokens[dot].value != "."
           || tokens[cursor].end != tokens[dot].start || tokens[dot].end != tokens[next].start {
          return None;
        }
        cursor := next;
      }
      partIndex := partIndex + 1;
    }
    var next := cursor + 1;
    if next < |tokens| && tokens[next].kind == SymbolToken && tokens[next].value == "."
       && tokens[cursor].end == tokens[next].start {
      return None;
    }
    r := Some((parts[0] + "." + parts[1] + "." + parts[2], cursor));
  }

  /** One round of the loop at a parenthesis, a comma or a semicolon. */
  method PunctuationStep(tokens: seq<SqlToken>, registry: map<string, string>, index: nat, scopes: seq<Scope>)
    returns (nextScopes: seq<Scope>)
    requires index < |tokens| && scopes != []
    requires tokens[index].kind == SymbolToken
    ensures MoveAt(AtomsOf(tokens), registry, index, scopes) == Move(index + 1, nextScopes, None)
  {
    hide KeywordOf, ScopeAfterWord, IsDistinctFrom, IsExternalName, ExternalName, IsQualifiedPart;
    ghost var atoms := AtomsOf(tokens);
    var value := tokens[index].value;
    var scope := Top(scopes);
    nextScopes := scopes;
    if value == "(" {
      var group := scope.expectRelation;
      var fromFirst := index + 1 < |tokens| && tokens[index + 1].kind == WordToken
                       && KeywordOf(tokens[index + 1].value) in {From, With};
      nextScopes := WithTop(scopes, scope.(expectRelation := false));
      nextScopes := nextScopes + [Scope(group, group, false, fromFirst, None, false)];
    } else if value == ")" {
      if |scopes| > 1 {
        nextScopes := scopes[..|scopes| - 1];
        nextScopes := WithTop(nextScopes, Top(nextScopes).(expectRelation := false));
      }
    } else if value == "," {
      if scope.inFrom {
        nextScopes := WithTop(scopes, scope.(expectRelation := true));
      }
    } else if value == ";" {
      nextScopes := WithTop(scopes, TOP_SCOPE);
    }
  }

  /** One round of the loop: the new index and scopes, and the registered name found, if any. */
  method RewriterStep(tokens: seq<SqlToken>, registry: map<string, string>, index: nat, scopes: seq<Scope>)
    returns (nextIndex: nat, nextScopes: seq<Scope>, found: Option<string>)
    requires index < |tokens| && scopes != []
    ensures MoveAt(AtomsOf(tokens), registry, index, scopes) == Move(nextIndex, nextScopes, found)
  {
    hide KeywordOf, ScopeAfterWord, IsDistinctFrom, IsExternalName, ExternalName, IsQualifiedPart;
    var token := tokens[index];
    var scope := Top(scopes);
    nextIndex, nextScopes, found := index + 1, scopes, None;
    if token.kind == SymbolToken {
      nextScopes := PunctuationStep(tokens, registry, index, scopes);
      return;
    }
    var external := None;
    if scope.expectRelation && (token.kind == WordToken || token.kind == QuotedIdentifier) {
      external := ExternalNameAt(tokens, index);
    }
    if external.Some? {
      var (fullName, last) := external.value;
      nextIndex := last + 1;
      nextScopes := WithTop(scopes, scope.(expectRelation := false));
      found := if fullName in registry then Some(fullName) else None;
    } else if token.kind == WordToken {
      nextScopes := WithTop(scopes,
                            ScopeAfterWord(scope, token.value, IsQualifiedPart(AtomsOf(tokens), index),
                                           IsDistinctFrom(AtomsOf(tokens), index)));
    } else {
      nextScopes := WithTop(scopes, scope.(expectRelation := false));
    }
  }

  lemma RunStep(atoms: seq<Atom>, registry: map<string, string>, st: State, stop: nat)
    requires st.scopes != [] && st.index < stop <= |atoms|
    ensures RunTo(atoms, registry, st, stop) == RunTo(atoms, registry, Step(atoms, registry, st), stop)
  {
    hide Step;
  }

  /** The replacements made so far are those of the marks. */
  ghost predicate Matching(tokens: seq<SqlToken>, registry: map<string, string>, marks: seq<Mark>, edits: seq<Edit>) {
    && |edits| == |marks|
    && forall k | 0 <= k < |marks| ::
         && marks[k].first + 4 < |tokens| && marks[k].name in registry
         && edits[k] == EditOf(tokens, registry, marks[k])
  }

  lemma MatchingAppend(tokens: seq<SqlToken>, registry: map<string, string>, marks: seq<Mark>, edits: seq<Edit>, m: Mark)
    requires Matching(tokens, registry, marks, edits) && m.first + 4 < |tokens| && m.name in registry
    ensures Matching(tokens, registry, marks + [m], edits + [EditOf(tokens, registry, m)])
  {
  }

  lemma MatchingNone(tokens: seq<SqlToken>, registry: map<string, string>)
    ensures Matching(tokens, registry, [], [])
  {
  }

  lemma TokensAre(sql: string)
    ensures forall p | p in Lex(START, sql) :: WellQuoted(p)
    ensures TokensOf(sql) == TokenView(Lex(START, sql), 0)
  {
    LexIsWellQuoted(START, sql);
  }

  lemma MatchingAll(tokens: seq<SqlToken>, registry: map<string, string>, marks: seq<Mark>, edits: seq<Edit>)
    requires Matching(tokens, registry, marks, edits)
    ensures forall k | 0 <= k < |marks| :: marks[k].first + 4 < |tokens| && marks[k].name in registry
    ensures edits == EditsOf(tokens, registry, marks)
  {
  }

  /** The loop's state is on the run that starts at the first token. */
  ghost predicate OnRun(tokens: seq<SqlToken>, registry: map<string, string>, st: State) {
    var atoms := AtomsOf(tokens);
    && st.index <= |atoms| && st.scopes != []
    && MarksOk(atoms, registry, st.marks, st.index)
    && RunTo(atoms, registry, st, |atoms|).marks == Marks(atoms, registry)
  }

  lemma OnRunStep(tokens: seq<SqlToken>, registry: map<string, string>, st: State)
    requires OnRun(tokens, registry, st) && st.index < |tokens|
    ensures OnRun(tokens, registry, Step(AtomsOf(tokens), registry, st))
  {
    hide Step, MarksOk, Marks, RunTo;
    StepMarks(AtomsOf(tokens), registry, st);
    RunStep(AtomsOf(tokens), registry, st, |AtomsOf(tokens)|);
  }

  lemma OnRunEnds(tokens: seq<SqlToken>, registry: map<string, string>, st: State)
    requires OnRun(tokens, registry, st) && st.index >= |tokens|
    ensures st.marks == Marks(AtomsOf(tokens), registry)
  {
    RunEnd(AtomsOf(tokens), registry, st);
  }

  lemma OnRunStarts(tokens: seq<SqlToken>, registry: map<string, string>)
    ensures OnRun(tokens, registry, INITIAL)
  {
    NoMarksOk(AtomsOf(tokens), registry);
  }

  /** `_rewrite_sql_for_duckdb`. */
  method RewriteSqlForDuckdb(sql: string, registry: map<string, string>) returns (result: string)
    ensures result == Rewrite(sql, registry)
  {
    if registry == map[] {
      NothingRegistered(sql);
      return sql;
    }
    var tokens := RewriterTokens(sql);
    hide OnRun, EditsOk, Rewrite, Marks, AtomsOf, MoveAt, Matching, RunTo, TokensOf;
    assert tokens == TokensOf(sql) by {
      TokensAre(sql);
    }
    ghost var marks: seq<Mark> := [];
    var replacements: seq<Edit> := [];
    var scopes := [TOP_SCOPE];
    var index := 0;
    OnRunStarts(tokens, registry);
    MatchingNone(tokens, registry);
    while index < |tokens|
      invariant 0 <= index <= |tokens| && scopes != []
      invariant OnRun(tokens, registry, State(index, scopes, marks))
      invariant Matching(tokens, registry, marks, replacements)
    {
      OnRunStep(tokens, registry, State(index, scopes, marks));
      var nextIndex, nextScopes, found := RewriterStep(tokens, registry, index, scopes);
      if found.Some? {
        var edit := Edit(tokens[index].start, tokens[index + 4].end, DeltaScan(registry[found.value]));
        MatchingAppend(tokens, registry, marks, replacements, Mark(index, found.value));
        replacements := replacements + [edit];
        marks := marks + [Mark(index, found.value)];
      }
      index, scopes := nextIndex, nextScopes;
    }
    OnRunEnds(tokens, registry, State(index, scopes, marks));
    MatchingAll(tokens, registry, marks, replacements);
    RewriteIs(sql, registry, marks);
    result := Splice(sql, replacements);
  }

  lemma NoMarksOk(atoms: seq<Atom>, registry: map<string, string>)
    ensures MarksOk(atoms, registry, [], 0)
  {
  }

  lemma RunEnd(atoms: seq<Atom>, registry: map<string, string>, st: State)
    requires st.scopes != [] && st.index >= |atoms|
    ensures RunTo(atoms, registry, st, |atoms|) == st
  {
  }

  lemma RewriteIs(sql: string, registry: map<string, string>, marks: seq<Mark>)
    requires marks == Marks(AtomsOf(TokensOf(sql)), registry)
    ensures MarksOk(AtomsOf(TokensOf(sql)), registry, marks, |TokensOf(sql)|)
    ensures forall k | 0 <= k < |marks| :: marks[k].first + 4 < |TokensOf(sql)| && marks[k].name in registry
    ensures EditsOk(sql, 0, EditsOf(TokensOf(sql), registry, marks))
    ensures Rewrite(sql, registry) == Substitute(sql, 0, EditsOf(TokensOf(sql), registry, marks))
  {
    hide RunTo, Substitute, TokensOf, MarksOk, EditsOk;
    MarksAreOk(AtomsOf(TokensOf(sql)), registry);
    EditsAreOk(sql, TokensOf(sql), registry, marks, |TokensOf(sql)|);
  }

  /** With nothing registered nothing is changed, as the early return assumes. */
  lemma NothingRegistered(sql: string)
    ensures Rewrite(sql, map[]) == sql
  {
    hide RunTo;
    var registry: map<string, string> := map[];
    var marks := Marks(AtomsOf(TokensOf(sql)), registry);
    RewriteIs(sql, registry, marks);
    FirstRegistered(marks, registry);
    assert marks == [];
    assert sql[0..] == sql;
  }

  lemma FirstRegistered(marks: seq<Mark>, registry: map<string, string>)
    requires forall k | 0 <= k < |marks| :: marks[k].name in registry
    ensures marks != [] ==> marks[0].name in registry
  {
  }

  // ---------------------------------------------------------------- strings and comments are left alone

  predicate Apart(a: nat, b: nat, c: nat, d: nat) { b <= c || d <= a }

  predicate ApartOrSame(s: SpanToken, t: SqlToken) { Apart(s.start, s.end, t.start, t.end) || SameToken(s, t) }

  lemma {:induction false} ViewsWithin(pieces: seq<Piece>, at: nat)
    requires forall p | p in pieces :: WellQuoted(p) && p.text != ""
    ensures forall s | s in SpanView(pieces, at, true) :: at <= s.start < s.end
    ensures forall t | t in TokenView(pieces, at) :: at <= t.start < t.end
  {
    if pieces != [] {
      ViewsWithin(pieces[1..], at + |pieces[0].text|);
    }
  }

  /** What both passes make of one piece: the same token, at the piece. */
  lemma PieceApart(p: Piece, at: nat)
    requires WellQuoted(p) && p.text != ""
    ensures forall s | s in Listed(SpanOf(p, at, true)) :: s.start == at && s.end == at + |p.text|
    ensures forall t | t in Listed(TokenOf(p, at)) :: t.start == at && t.end == at + |p.text|
    ensures forall s, t | s in Listed(SpanOf(p, at, true)) && t in Listed(TokenOf(p, at)) :: SameToken(s, t)
  {
  }

  lemma ViewsCons(pieces: seq<Piece>, at: nat)
    requires pieces != [] && forall p | p in pieces :: WellQuoted(p)
    ensures
      var p, next := pieces[0], at + |pieces[0].text|;
      && SpanView(pieces, at, true) == Listed(SpanOf(p, at, true)) + SpanView(pieces[1..], next, true)
      && TokenView(pieces, at) == Listed(TokenOf(p, at)) + TokenView(pieces[1..], next)
  {
  }

  /** A span of one pass and a token of the other are the same or do not overlap. */
  lemma {:induction false} SpansApart(pieces: seq<Piece>, at: nat)
    requires forall p | p in pieces :: WellQuoted(p) && p.text != ""
    ensures forall s, t | s in SpanView(pieces, at, true) && t in TokenView(pieces, at) :: ApartOrSame(s, t)
  {
    hide SpanView, TokenView, SpanOf, TokenOf, Listed, SameToken, WellQuoted;
    if pieces == [] {
      NoViews(at);
    } else {
      var p, next := pieces[0], at + |pieces[0].text|;
      SpansApart(pieces[1..], next);
      ViewsWithin(pieces[1..], next);
      ViewsCons(pieces, at);
      PieceApart(p, at);
      var s0, t0 := Listed(SpanOf(p, at, true)), Listed(TokenOf(p, at));
      var s1, t1 := SpanView(pieces[1..], next, true), TokenView(pieces[1..], next);
      forall s, t | s in s0 + s1 && t in t0 + t1 ensures ApartOrSame(s, t) {
        assert (s in s0 || s in s1) && (t in t0 || t in t1);
      }
    }
  }

  lemma NoViews(at: nat)
    ensures SpanView([], at, true) == [] && TokenView([], at) == []
  {
  }

  /** Five tokens without gaps, none of them `s`, are apart from `s` as a whole. */
  lemma FiveApart(tokens: seq<SqlToken>, end: nat, i: nat, s: SpanToken)
    requires Ordered(tokens, 0, end) && IsExternalName(AtomsOf(tokens), i)
    requires s.start < s.end && (s.kind == StringSpan || s.kind == CommentSpan)
    requires forall t | t in tokens :: ApartOrSame(s, t)
    ensures Apart(s.start, s.end, tokens[i].start, tokens[i + 4].end)
  {
    var atoms := AtomsOf(tokens);
    assert tokens[i].end == tokens[i + 1].start && tokens[i + 1].end == tokens[i + 2].start;
    assert tokens[i + 2].end == tokens[i + 3].start && tokens[i + 3].end == tokens[i + 4].start;
    forall k | i <= k <= i + 4 ensures Apart(s.start, s.end, tokens[k].start, tokens[k].end) {
      assert tokens[k] in tokens && atoms[k].kind != LiteralToken;
    }
  }

  /**
   * On every text and registry: the replaced spans are increasing and disjoint, each is a gapless
   * three-part registered name, and none overlaps a string literal or a comment.
   */
  lemma ReplacedSpans(sql: string, registry: map<string, string>)
    ensures
      var tokens := TokensOf(sql);
      var marks := Marks(AtomsOf(tokens), registry);
      && MarksOk(AtomsOf(tokens), registry, marks, |tokens|)
      && (forall k | 0 <= k < |marks| :: marks[k].first + 4 < |tokens| && marks[k].name in registry)
      && EditsOk(sql, 0, EditsOf(tokens, registry, marks))
      && (forall k, s | 0 <= k < |marks| && s in SpanView(Lex(START, sql), 0, true)
                        && (s.kind == StringSpan || s.kind == CommentSpan) ::
            Apart(s.start, s.end, tokens[marks[k].first].start, tokens[marks[k].first + 4].end))
  {
    hide RunTo, TokensOf, Marks, AtomsOf, EditsOk, IsExternalName, SpanView, Ordered;
    var tokens := TokensOf(sql);
    var marks := Marks(AtomsOf(tokens), registry);
    RewriteIs(sql, registry, marks);
    forall k, s | 0 <= k < |marks| && s in SpanView(Lex(START, sql), 0, true)
                  && (s.kind == StringSpan || s.kind == CommentSpan)
      ensures Apart(s.start, s.end, tokens[marks[k].first].start, tokens[marks[k].first + 4].end)
    {
      TextApart(sql, s);
      FiveApart(tokens, |sql|, marks[k].first, s);
    }
  }

  lemma TextApart(sql: string, s: SpanToken)
    requires s in SpanView(Lex(START, sql), 0, true)
    ensures s.start < s.end
    ensures forall t | t in TokensOf(sql) :: ApartOrSame(s, t)
  {
    hide TokensOf, SpanView, TokenView, SameToken;
    TokensAre(sql);
    PiecesNotEmpty(START, sql);
    SpansApart(Lex(START, sql), 0);
    ViewsWithin(Lex(START, sql), 0);
  }
}
