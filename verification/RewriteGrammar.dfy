/** On every query of the grammar the rewriter marks exactly the registered names where it expects a relation. */
module RewriteGrammar {
  import opened Text
  import opened SqlTokens
  import opened Rewriter
  import opened QueryGrammar

  // ---------------------------------------------------------------- segments of the token sequence

  /** `xs` stands in `atoms` at `i`. */
  ghost predicate At(atoms: seq<Atom>, i: nat, xs: seq<Atom>) {
    i + |xs| <= |atoms| && forall k | 0 <= k < |xs| :: atoms[i + k] == xs[k]
  }

  lemma AtSplit(atoms: seq<Atom>, i: nat, x: seq<Atom>, y: seq<Atom>)
    requires At(atoms, i, x + y)
    ensures At(atoms, i, x) && At(atoms, i + |x|, y)
  {
    forall k | 0 <= k < |x| ensures atoms[i + k] == x[k] {
      assert (x + y)[k] == x[k];
    }
    forall k | 0 <= k < |y| ensures atoms[i + |x| + k] == y[k] {
      assert (x + y)[|x| + k] == y[k];
      assert i + |x| + k == i + (|x| + k);
    }
  }

  lemma AtOne(atoms: seq<Atom>, i: nat, a: Atom, xs: seq<Atom>)
    requires At(atoms, i, [a] + xs)
    ensures i < |atoms| && atoms[i] == a && At(atoms, i + 1, xs)
  {
    AtSplit(atoms, i, [a], xs);
    assert atoms[i + 0] == [a][0];
  }

  lemma AtThree(atoms: seq<Atom>, i: nat, x: seq<Atom>, y: seq<Atom>, z: seq<Atom>)
    requires At(atoms, i, x + y + z)
    ensures At(atoms, i, x) && At(atoms, i + |x|, y) && At(atoms, i + |x| + |y|, z) && At(atoms, i, x + y)
  {
    hide At;
    AtSplit(atoms, i, x + y, z);
    AtSplit(atoms, i, x, y);
  }

  lemma AtEnclosed(atoms: seq<Atom>, i: nat, open: Atom, xs: seq<Atom>, close: Atom)
    requires At(atoms, i, Enclosed(open, xs, close))
    ensures i + 1 + |xs| < |atoms| && atoms[i] == open && At(atoms, i + 1, xs) && atoms[i + 1 + |xs|] == close
  {
    AtThree(atoms, i, [open], xs, [close]);
    assert atoms[i + 0] == [open][0] && atoms[i + 1 + |xs| + 0] == [close][0];
  }

  lemma AtLength(atoms: seq<Atom>, i: nat, xs: seq<Atom>)
    requires At(atoms, i, xs)
    ensures i + |xs| <= |atoms|
  {
  }

  predicate NoDot(atoms: seq<Atom>, i: nat) { i >= |atoms| || !IsSymbol(atoms[i], '.') }

  lemma FirstNoDot(atoms: seq<Atom>, i: nat, xs: seq<Atom>)
    requires At(atoms, i, xs) && !Starts(xs, '.') && (xs != [] || NoDot(atoms, i + |xs|))
    ensures NoDot(atoms, i)
  {
    if xs != [] {
      assert atoms[i + 0] == xs[0];
    }
  }

  /** The token before the end of `xs` is its last one. */
  lemma QualifiedAfter(atoms: seq<Atom>, i: nat, xs: seq<Atom>)
    requires At(atoms, i, xs)
    ensures IsQualifiedPart(atoms, i + |xs|) == if xs == [] then IsQualifiedPart(atoms, i) else EndsPoint(xs)
  {
    if xs != [] {
      assert atoms[i + (|xs| - 1)] == xs[|xs| - 1];
    }
  }

  /** A token that is no dot, and what follows it. */
  lemma QualifiedBehind(atoms: seq<Atom>, i: nat, xs: seq<Atom>)
    requires i < |atoms| && !IsSymbol(atoms[i], '.') && At(atoms, i + 1, xs)
    ensures IsQualifiedPart(atoms, i + 1 + |xs|) == EndsPoint(xs)
  {
    QualifiedAfter(atoms, i + 1, xs);
  }

  lemma KeywordIsNoDot(a: Atom, k: Keyword)
    requires IsKeyword(a, k)
    ensures !IsSymbol(a, '.')
  {
  }

  // ---------------------------------------------------------------- no part begins with a dot

  lemma OpeningBody(r: Relation, code: bool, lists: bool)
    requires WfBody(r, code, lists)
    ensures PrintBody(r) != [] && !Starts(PrintBody(r), '.')
  {
    hide KeywordOf, Role, PrintQuery, PrintRelations, PrintParts, WfQuery, WfRelations, PartsOk, StartsFromQuery;
  }

  lemma OpeningRelation(r: Relation, inFrom: bool, code: bool, lists: bool)
    requires WfRelation(r, inFrom, code, lists)
    ensures PrintRelation(r) != [] && !Starts(PrintRelation(r), '.')
  {
    hide KeywordOf, Role, PrintBody, PrintExpr, WfBody, WfExpr;
    OpeningBody(r, code, lists);
    assert r.modifiers != [] ==> r.modifiers[0] in r.modifiers;
  }

  lemma OpeningRelations(r: Relations, inFrom: bool, code: bool, lists: bool)
    requires WfRelations(r, inFrom, code, lists)
    ensures PrintRelations(r) != [] && !Starts(PrintRelations(r), '.')
  {
    hide PrintRelation, PrintMore, WfRelation, WfMore;
    OpeningRelation(r.relation, inFrom, code, lists);
  }

  lemma OpeningMore(m: More, inFrom: bool, dotted: bool, lists: bool)
    requires WfMore(m, inFrom, dotted, lists)
    ensures !Starts(PrintMore(m), '.')
  {
    hide KeywordOf, Role, PrintRelation, PrintRelations, WfRelation, WfRelations;
  }

  lemma OpeningTails(t: Tails, inFrom: bool, dotted: bool, lists: bool)
    requires WfTails(t, inFrom, dotted, lists)
    ensures !Starts(PrintTails(t), '.')
  {
    hide KeywordOf, Role, PrintExpr, WfExpr;
  }

  lemma OpeningCore(c: Core, inFrom: bool, due: bool, lists: bool)
    requires WfCore(c, inFrom, due, lists)
    ensures PrintCore(c) != [] && !Starts(PrintCore(c), '.')
  {
    hide KeywordOf, Role, PrintExpr, PrintRelations, PrintQuery, PrintPicked, WfExpr, WfRelations, WfQuery,
      RelationsEnd;
  }

  lemma OpeningQuery(q: Query, inFrom: bool, due: bool, lists: bool)
    requires WfQuery(q, inFrom, due, lists)
    ensures PrintQuery(q) != [] && !Starts(PrintQuery(q), '.')
  {
    hide KeywordOf, Role, PrintExpr, PrintCore, PrintTails, WfExpr, WfCore, WfTails, CoreEnd, TermEnd;
    if !q.WithQuery? {
      OpeningCore(q.term.core, inFrom, due, lists);
    }
  }

  // ---------------------------------------------------------------- runs

  /** The rewriter goes from state `a` to state `b`. */
  ghost predicate Runs(atoms: seq<Atom>, registry: map<string, string>, a: State, b: State) {
    && a.scopes != [] && b.scopes != [] && a.index <= b.index <= |atoms|
    && RunTo(atoms, registry, a, b.index) == b
  }

  lemma {:induction false} RunToTrans(atoms: seq<Atom>, registry: map<string, string>, a: State, j: nat, k: nat)
    requires a.scopes != [] && j <= k <= |atoms|
    ensures RunTo(atoms, registry, a, k) == RunTo(atoms, registry, RunTo(atoms, registry, a, j), k)
    decreases |atoms| - a.index
  {
    if a.index < j {
      hide Step;
      RunToTrans(atoms, registry, Step(atoms, registry, a), j, k);
    }
  }

  lemma RunsTrans(atoms: seq<Atom>, registry: map<string, string>, a: State, b: State, c: State)
    requires Runs(atoms, registry, a, b) && Runs(atoms, registry, b, c)
    ensures Runs(atoms, registry, a, c)
  {
    hide RunTo;
    RunToTrans(atoms, registry, a, b.index, c.index);
  }

  lemma RunsFour(atoms: seq<Atom>, registry: map<string, string>, a: State, b: State, c: State, d: State)
    requires Runs(atoms, registry, a, b) && Runs(atoms, registry, b, c) && Runs(atoms, registry, c, d)
    ensures Runs(atoms, registry, a, d)
  {
    hide Runs;
    RunsTrans(atoms, registry, a, b, c);
    RunsTrans(atoms, registry, a, c, d);
  }

  lemma RunsSame(atoms: seq<Atom>, registry: map<string, string>, st: State)
    requires st.scopes != [] && st.index <= |atoms|
    ensures Runs(atoms, registry, st, st)
  {
  }

  lemma RunsOneStep(atoms: seq<Atom>, registry: map<string, string>, a: State)
    requires a.scopes != [] && a.index < |atoms|
    ensures Runs(atoms, registry, a, Step(atoms, registry, a))
  {
    hide Step;
    var b := Step(atoms, registry, a);
    assert RunTo(atoms, registry, b, b.index) == b;
  }

  function Stacked(i: nat, below: seq<Scope>, top: Scope, marks: seq<Mark>): State {
    State(i, below + [top], marks)
  }

  /** The scope once a relation is expected, or no more. */
  function Set(top: Scope, due: bool): Scope { top.(expectRelation := due) }

  lemma StackedTop(i: nat, below: seq<Scope>, top: Scope, marks: seq<Mark>)
    ensures var st := Stacked(i, below, top, marks);
      Top(st.scopes) == top && st.scopes[..|st.scopes| - 1] == below
  {
  }

  lemma WordRuns(atoms: seq<Atom>, registry: map<string, string>, i: nat, below: seq<Scope>, top: Scope, marks: seq<Mark>)
    requires i < |atoms| && atoms[i].kind == WordToken && !(top.expectRelation && IsExternalName(atoms, i))
    ensures
      var after := ScopeAfterWord(top, atoms[i].value, IsQualifiedPart(atoms, i), IsDistinctFrom(atoms, i));
      Runs(atoms, registry, Stacked(i, below, top, marks), Stacked(i + 1, below, after, marks))
  {
    hide ScopeAfterWord, KeywordOf, Role, IsExternalName, ThreePart, IsDistinctFrom, IsQualifiedPart;
    StackedTop(i, below, top, marks);
    RunsOneStep(atoms, registry, Stacked(i, below, top, marks));
  }

  lemma PlainRuns(atoms: seq<Atom>, registry: map<string, string>, i: nat, below: seq<Scope>, top: Scope, marks: seq<Mark>)
    requires i < |atoms| && (atoms[i].kind == LiteralToken || atoms[i].kind == QuotedIdentifier)
    requires !(top.expectRelation && IsExternalName(atoms, i))
    ensures Runs(atoms, registry, Stacked(i, below, top, marks), Stacked(i + 1, below, Set(top, false), marks))
  {
    hide ScopeAfterWord, KeywordOf, Role, IsExternalName, ThreePart, IsDistinctFrom, IsQualifiedPart;
    StackedTop(i, below, top, marks);
    RunsOneStep(atoms, registry, Stacked(i, below, top, marks));
  }

  lemma SymbolRuns(atoms: seq<Atom>, registry: map<string, string>, i: nat, below: seq<Scope>, top: Scope, marks: seq<Mark>)
    requires i < |atoms| && atoms[i].kind == SymbolToken && !IsOneOf(atoms[i], "(),;")
    ensures Runs(atoms, registry, Stacked(i, below, top, marks), Stacked(i + 1, below, top, marks))
  {
    hide ScopeAfterWord, KeywordOf, Role, IsExternalName, ThreePart, IsDistinctFrom, IsQualifiedPart;
    RunsOneStep(atoms, registry, Stacked(i, below, top, marks));
  }

  lemma CommaRuns(atoms: seq<Atom>, registry: map<string, string>, i: nat, below: seq<Scope>, top: Scope, marks: seq<Mark>)
    requires i < |atoms| && IsSymbol(atoms[i], ',')
    ensures
      Runs(atoms, registry, Stacked(i, below, top, marks),
           Stacked(i + 1, below, Set(top, top.inFrom || top.expectRelation), marks))
  {
    hide ScopeAfterWord, KeywordOf, Role, IsExternalName, ThreePart, IsDistinctFrom, IsQualifiedPart;
    StackedTop(i, below, top, marks);
    RunsOneStep(atoms, registry, Stacked(i, below, top, marks));
  }

  /** FROM or WITH at `i`. */
  predicate FromAt(atoms: seq<Atom>, i: nat) {
    i < |atoms| && (IsWord(atoms[i], From) || IsWord(atoms[i], With))
  }

  /** The scope a parenthesis at `i` opens. */
  function Inner(atoms: seq<Atom>, i: nat, top: Scope): Scope {
    Scope(top.expectRelation, top.expectRelation, false, FromAt(atoms, i + 1), None, false)
  }

  lemma OpenRuns(atoms: seq<Atom>, registry: map<string, string>, i: nat, below: seq<Scope>, top: Scope, marks: seq<Mark>)
    requires i < |atoms| && IsSymbol(atoms[i], '(')
    ensures Runs(atoms, registry, Stacked(i, below, top, marks),
                 Stacked(i + 1, below + [Set(top, false)], Inner(atoms, i, top), marks))
  {
    hide ScopeAfterWord, KeywordOf, Role, IsExternalName, ThreePart, IsDistinctFrom, IsQualifiedPart;
    StackedTop(i, below, top, marks);
    RunsOneStep(atoms, registry, Stacked(i, below, top, marks));
  }

  lemma CloseRuns(atoms: seq<Atom>, registry: map<string, string>, i: nat, below: seq<Scope>, outer: Scope, top: Scope,
                  marks: seq<Mark>)
    requires i < |atoms| && IsSymbol(atoms[i], ')')
    ensures Runs(atoms, registry, Stacked(i, below + [outer], top, marks), Stacked(i + 1, below, Set(outer, false), marks))
  {
    hide ScopeAfterWord, KeywordOf, Role, IsExternalName, ThreePart, IsDistinctFrom, IsQualifiedPart;
    var st := Stacked(i, below + [outer], top, marks);
    assert st.scopes[..|st.scopes| - 1] == below + [outer];
    assert Top(below + [outer]) == outer && (below + [outer])[..|below|] == below;
    RunsOneStep(atoms, registry, st);
  }

  /** Parentheses and a run of what stands in them. */
  lemma EnclosedRuns(atoms: seq<Atom>, registry: map<string, string>, i: nat, n: nat, below: seq<Scope>, top: Scope,
                     last: Scope, marks: seq<Mark>, after: seq<Mark>)
    requires i + n + 1 < |atoms| && IsSymbol(atoms[i], '(') && IsSymbol(atoms[i + n + 1], ')')
    requires Runs(atoms, registry, Stacked(i + 1, below + [Set(top, false)], Inner(atoms, i, top), marks),
                  Stacked(i + n + 1, below + [Set(top, false)], last, after))
    ensures Runs(atoms, registry, Stacked(i, below, top, marks), Stacked(i + n + 2, below, Set(top, false), after))
  {
    hide Runs, Inner;
    OpenRuns(atoms, registry, i, below, top, marks);
    CloseRuns(atoms, registry, i + n + 1, below, Set(top, false), last, after);
    RunsFour(atoms, registry, Stacked(i, below, top, marks),
             Stacked(i + 1, below + [Set(top, false)], Inner(atoms, i, top), marks),
             Stacked(i + n + 1, below + [Set(top, false)], last, after), Stacked(i + n + 2, below, Set(top, false), after));
  }

  lemma NameRuns(atoms: seq<Atom>, registry: map<string, string>, i: nat, below: seq<Scope>, top: Scope, marks: seq<Mark>)
    requires IsExternalName(atoms, i) && top.expectRelation
    ensures
      var name := ExternalName(atoms, i);
      Runs(atoms, registry, Stacked(i, below, top, marks),
           Stacked(i + 5, below, Set(top, false), marks + if name in registry then [Mark(i, name)] else []))
  {
    hide ScopeAfterWord, KeywordOf, Role, IsDistinctFrom, IsQualifiedPart, ExternalName, CatalogName;
    StackedTop(i, below, top, marks);
    RunsOneStep(atoms, registry, Stacked(i, below, top, marks));
  }

  // ---------------------------------------------------------------- words

  /** A relation is expected in FROM lists only. */
  predicate Sane(top: Scope) { top.expectRelation ==> top.inFrom }

  /** Scopes as they occur in queries: no DELETE or MERGE waits for its USING. */
  predicate Calm(top: Scope) { Sane(top) && !top.writeSourcePending }

  /** The word is not the USING of a DELETE or MERGE. */
  predicate NotUsing(top: Scope, a: Atom) { top.writeSourcePending ==> !IsWord(a, Using) }

  lemma OrdinaryScope(top: Scope, word: string, qualified: bool, distinctFrom: bool)
    requires qualified || KeywordOf(word) in {Plain, Is, Not, Distinct, With, Modifier, On, Using}
    requires top.writeSourcePending ==> qualified || KeywordOf(word) != Using
    ensures ScopeAfterWord(top, word, qualified, distinctFrom) ==
            Set(top, top.expectRelation && KeywordOf(word) == Modifier)
  {
    hide KeywordOf, Role;
  }

  lemma NotExternal(atoms: seq<Atom>, i: nat)
    requires i < |atoms| && (NoDot(atoms, i + 1) || !atoms[i].glued)
    ensures !IsExternalName(atoms, i)
  {
  }

  /** One token without a role of its own. */
  lemma LeafRuns(atoms: seq<Atom>, registry: map<string, string>, i: nat, below: seq<Scope>, top: Scope, marks: seq<Mark>)
    requires i < |atoms| && IsLeaf(atoms[i]) && NotUsing(top, atoms[i])
    requires top.expectRelation && IsName(atoms[i]) ==> !IsExternalName(atoms, i)
    ensures var due := top.expectRelation && (atoms[i].kind == SymbolToken || IsKeyword(atoms[i], Modifier));
      Runs(atoms, registry, Stacked(i, below, top, marks), Stacked(i + 1, below, Set(top, due), marks))
  {
    hide Runs, ScopeAfterWord, KeywordOf, Role, IsDistinctFrom, IsQualifiedPart;
    var a := atoms[i];
    if a.kind == WordToken {
      WordRuns(atoms, registry, i, below, top, marks);
      OrdinaryScope(top, a.value, IsQualifiedPart(atoms, i), IsDistinctFrom(atoms, i));
    } else if a.kind == SymbolToken {
      SymbolRuns(atoms, registry, i, below, top, marks);
      assert Set(top, top.expectRelation) == top;
    } else {
      PlainRuns(atoms, registry, i, below, top, marks);
    }
  }

  /** A dot and a name behind it, where no relation is expected. */
  lemma PartRuns(atoms: seq<Atom>, registry: map<string, string>, i: nat, below: seq<Scope>, top: Scope, marks: seq<Mark>)
    requires i + 1 < |atoms| && IsSymbol(atoms[i], '.') && (IsName(atoms[i + 1]) || IsSymbol(atoms[i + 1], '*'))
    requires !top.expectRelation
    ensures Runs(atoms, registry, Stacked(i, below, top, marks), Stacked(i + 2, below, top, marks))
  {
    hide Runs, ScopeAfterWord, KeywordOf, Role, IsExternalName, ThreePart, IsDistinctFrom;
    assert Set(top, false) == top;
    SymbolRuns(atoms, registry, i, below, top, marks);
    if atoms[i + 1].kind == WordToken {
      WordRuns(atoms, registry, i + 1, below, top, marks);
      OrdinaryScope(top, atoms[i + 1].value, true, IsDistinctFrom(atoms, i + 1));
    } else if IsSymbol(atoms[i + 1], '*') {
      SymbolRuns(atoms, registry, i + 1, below, top, marks);
    } else {
      PlainRuns(atoms, registry, i + 1, below, top, marks);
    }
    RunsTrans(atoms, registry, Stacked(i, below, top, marks), Stacked(i + 1, below, top, marks),
              Stacked(i + 2, below, top, marks));
  }

  lemma {:induction false} PartsRuns(atoms: seq<Atom>, registry: map<string, string>, parts: seq<Part>, i: nat,
                                     below: seq<Scope>, top: Scope, marks: seq<Mark>)
    requires At(atoms, i, PrintParts(parts)) && PartsOk(parts) && !top.expectRelation
    ensures Runs(atoms, registry, Stacked(i, below, top, marks), Stacked(i + |PrintParts(parts)|, below, top, marks))
  {
    hide Runs;
    if parts == [] {
      RunsSame(atoms, registry, Stacked(i, below, top, marks));
    } else {
      AtSplit(atoms, i, [parts[0].dot, parts[0].name], PrintParts(parts[1..]));
      assert atoms[i + 0] == [parts[0].dot, parts[0].name][0] && atoms[i + 1] == [parts[0].dot, parts[0].name][1];
      PartRuns(atoms, registry, i, below, top, marks);
      PartsRuns(atoms, registry, parts[1..], i + 2, below, top, marks);
      RunsTrans(atoms, registry, Stacked(i, below, top, marks), Stacked(i + 2, below, top, marks),
                Stacked(i + |PrintParts(parts)|, below, top, marks));
    }
  }

  lemma {:induction false} PartsLength(parts: seq<Part>)
    ensures |PrintParts(parts)| == 2 * |parts|
  {
    if parts != [] {
      PartsLength(parts[1..]);
    }
  }

  /** The tokens behind the first two parts. */
  lemma PartsFrom(parts: seq<Part>)
    requires |parts| >= 2
    ensures |PrintParts(parts)| == 2 * |parts| && PrintParts(parts)[4..] == PrintParts(parts[2..])
  {
    PartsLength(parts);
    var one, two := parts[1..], parts[2..];
    assert one[1..] == two;
    assert PrintParts(parts) == [parts[0].dot, parts[0].name] + ([one[0].dot, one[0].name] + PrintParts(two));
  }

  /** Whether a three-part name stands at `i` can be told from the tokens of the name and the next one. */
  lemma ExternalLocal(atoms: seq<Atom>, i: nat, xs: seq<Atom>)
    requires At(atoms, i, xs) && |xs| % 2 == 1 && (NoDot(atoms, i + |xs|) || !IsName(xs[|xs| - 1]))
    ensures IsExternalName(atoms, i) <==> IsExternalName(xs, 0)
    ensures IsExternalName(xs, 0) ==> ExternalName(atoms, i) == ExternalName(xs, 0)
  {
    assert atoms[i + 0] == xs[0];
    if |xs| > 1 {
      assert atoms[i + 1] == xs[1] && atoms[i + 2] == xs[2];
    }
    if |xs| > 3 {
      assert atoms[i + 3] == xs[3] && atoms[i + 4] == xs[4];
    }
    if |xs| > 5 {
      assert atoms[i + 5] == xs[5];
    }
  }

  lemma TakenNone(marks: seq<Mark>, registry: map<string, string>)
    ensures marks + Taken([], registry) == marks
  {
  }

  lemma TakenOne(s: Slot, registry: map<string, string>)
    ensures Taken([s], registry) == if IsTaken(s, registry) then [Mark(s.first, s.name)] else []
  {
    assert [s][1..] == [];
  }

  /** A name: taken as a whole where a relation is expected and it has three parts, else read part by part. */
  lemma DottedRuns(atoms: seq<Atom>, registry: map<string, string>, head: Atom, parts: seq<Part>, meant: bool, i: nat,
                   below: seq<Scope>, top: Scope, marks: seq<Mark>)
    requires At(atoms, i, [head] + PrintParts(parts)) && PartsOk(parts) && NotUsing(top, head)
    requires EndsName([head] + PrintParts(parts)) ==> NoDot(atoms, i + 1 + |PrintParts(parts)|)
    requires IsHead(head) || (head.kind == LiteralToken && parts == [])
             || (top.expectRelation && IsExternalName([head] + PrintParts(parts), 0))
    ensures var xs := [head] + PrintParts(parts);
      Runs(atoms, registry, Stacked(i, below, top, marks),
           Stacked(i + |xs|, below, Set(top, false),
                   marks + Taken(NameSlots(xs, i, top.expectRelation, meant), registry)))
  {
    hide Runs, ScopeAfterWord, KeywordOf, Role, IsDistinctFrom, IsQualifiedPart, PrintParts, PartsOk, Taken,
      IsExternalName, ThreePart, ExternalName, CatalogName, IsHead;
    var xs := [head] + PrintParts(parts);
    var t1 := Set(top, false);
    PartsLength(parts);
    ExternalLocal(atoms, i, xs);
    TakenNone(marks, registry);
    if IsExternalName(xs, 0) {
      ExternalLength(xs);
      TakenOne(Slot(i, ExternalName(xs, 0), top.expectRelation, meant), registry);
    }
    if top.expectRelation && IsExternalName(xs, 0) {
      NameRuns(atoms, registry, i, below, top, marks);
      var after := marks + Taken(NameSlots(xs, i, true, meant), registry);
      PartsFrom(parts);
      assert xs[5..] == PrintParts(parts)[4..] && xs == xs[..5] + xs[5..];
      AtSplit(atoms, i, xs[..5], xs[5..]);
      SomeParts(parts, 2);
      PartsRuns(atoms, registry, parts[2..], i + 5, below, t1, after);
      RunsTrans(atoms, registry, Stacked(i, below, top, marks), Stacked(i + 5, below, t1, after),
                Stacked(i + |xs|, below, t1, after));
    } else {
      AtOne(atoms, i, head, PrintParts(parts));
      HeadIsLeaf(head);
      LeafRuns(atoms, registry, i, below, top, marks);
      PartsRuns(atoms, registry, parts, i + 1, below, t1, marks);
      RunsTrans(atoms, registry, Stacked(i, below, top, marks), Stacked(i + 1, below, t1, marks),
                Stacked(i + |xs|, below, t1, marks));
      assert marks + [] == marks;
    }
  }

  lemma ExternalLength(xs: seq<Atom>)
    requires IsExternalName(xs, 0)
    ensures |xs| >= 5
  {
  }

  lemma SomeParts(parts: seq<Part>, k: nat)
    requires PartsOk(parts) && k <= |parts|
    ensures PartsOk(parts[k..])
  {
  }

  lemma HeadIsLeaf(a: Atom)
    ensures IsHead(a) ==> IsLeaf(a) && a.kind != SymbolToken && !IsKeyword(a, Modifier)
    ensures a.kind == LiteralToken ==> IsLeaf(a) && !IsKeyword(a, Modifier)
  {
    hide KeywordOf, Role;
  }

  // ---------------------------------------------------------------- expressions

  lemma TakenCons(s: Slot, rest: seq<Slot>, registry: map<string, string>)
    ensures Taken([s] + rest, registry) ==
      (if IsTaken(s, registry) then [Mark(s.first, s.name)] else []) + Taken(rest, registry)
  {
    hide IsTaken;
    assert ([s] + rest)[1..] == rest;
  }

  lemma {:induction false} TakenConcat(a: seq<Slot>, b: seq<Slot>, registry: map<string, string>)
    ensures Taken(a + b, registry) == Taken(a, registry) + Taken(b, registry)
  {
    if a == [] {
      assert a + b == b;
    } else {
      hide Taken, IsTaken;
      var s, rest := a[0], a[1..];
      assert a == [s] + rest && a + b == [s] + (rest + b);
      TakenConcat(rest, b, registry);
      TakenCons(s, rest, registry);
      TakenCons(s, rest + b, registry);
    }
  }

  /** Marks taken from two lists of slots, one after the other. */
  lemma TakenTwo(marks: seq<Mark>, a: seq<Slot>, b: seq<Slot>, registry: map<string, string>)
    ensures (marks + Taken(a, registry)) + Taken(b, registry) == marks + Taken(a + b, registry)
  {
    TakenConcat(a, b, registry);
  }

  /** A scope in which everything the spot allows leaves the scope as it is, but for what a comma does. */
  predicate Fits(spot: Spot, top: Scope) {
    && Sane(top) && (top.writeSourcePending ==> spot.target)
    && (spot.calls ==> !top.queryStarted && !top.allowBareFrom && !top.inFrom)
    && (spot.clauses ==> !top.inFrom && !top.allowBareFrom)
  }

  /** Outside a FROM list no relation ever comes to be expected. */
  lemma {:induction false} ItemNeedsFrom(item: Item)
    ensures !ItemDue(item, false, false)
  {
    match item
    case Bracket(_, body, _, _) => ExprNeedsFrom(body);
    case _ =>
  }

  lemma {:induction false} ExprNeedsFrom(e: Expr)
    ensures !ExprDue(e, false, false)
  {
    match e
    case Nil =>
    case Cons(item, rest) =>
      ItemNeedsFrom(item);
      ExprNeedsFrom(rest);
  }

  lemma FitsOn(spot: Spot, top: Scope, item: Item)
    requires Fits(spot, top)
    ensures Fits(spot, Set(top, ItemDue(item, top.inFrom, top.expectRelation)))
  {
    hide ItemDue;
    if !top.inFrom {
      ItemNeedsFrom(item);
    }
  }

  lemma StillSane(top: Scope, e: Expr)
    requires Sane(top)
    ensures Sane(Set(top, ExprDue(e, top.inFrom, top.expectRelation))) && Sane(Set(top, false))
    ensures Calm(top) ==> Calm(Set(top, ExprDue(e, top.inFrom, top.expectRelation))) && Calm(Set(top, false))
  {
    hide ExprDue;
    if !top.inFrom {
      ExprNeedsFrom(e);
    }
  }

  /** The state behind an item. */
  function Behind(item: Item, i: nat, below: seq<Scope>, top: Scope, marks: seq<Mark>, registry: map<string, string>): State {
    Stacked(i + |PrintItem(item)|, below, Set(top, ItemDue(item, top.inFrom, top.expectRelation)),
            marks + Taken(ItemSlots(item, i, top.inFrom, top.expectRelation), registry))
  }

  lemma ItemRuns(atoms: seq<Atom>, registry: map<string, string>, item: Item, spot: Spot, lists: bool, i: nat,
                 below: seq<Scope>, top: Scope, marks: seq<Mark>)
    requires WfItem(item, spot, top.inFrom, top.expectRelation, lists) && At(atoms, i, PrintItem(item)) && Fits(spot, top)
    requires EndsName(PrintItem(item)) ==> NoDot(atoms, i + |PrintItem(item)|)
    ensures Runs(atoms, registry, Stacked(i, below, top, marks), Behind(item, i, below, top, marks, registry))
    decreases item, 1
  {
    hide *;
    match item
    case Group(_, _, _, _) => GroupRuns(atoms, registry, item, spot, lists, i, below, top, marks);
    case Bracket(_, _, _, _) => BracketRuns(atoms, registry, item, spot, lists, i, below, top, marks);
    case TrimFrom(_, _, _, _, _) => TrimRuns(atoms, registry, item, spot, lists, i, below, top, marks);
    case Subquery(_, _, _, _) => SubqueryRuns(atoms, registry, item, spot, lists, i, below, top, marks);
    case Column(_, _) => ColumnRuns(atoms, registry, item, spot, lists, i, below, top, marks);
    case DistinctTest(_, _, _, _) => DistinctTestRuns(atoms, registry, item, spot, lists, i, below, top, marks);
    case Decimal(_, _, _) => DecimalRuns(atoms, registry, item, spot, lists, i, below, top, marks);
    case _ => SmallItemRuns(atoms, registry, item, spot, lists, i, below, top, marks);
  }

  lemma ColumnRuns(atoms: seq<Atom>, registry: map<string, string>, item: Item, spot: Spot, lists: bool, i: nat,
                   below: seq<Scope>, top: Scope, marks: seq<Mark>)
    requires item.Column? && WfItem(item, spot, top.inFrom, top.expectRelation, lists)
    requires At(atoms, i, PrintItem(item)) && Fits(spot, top)
    requires EndsName(PrintItem(item)) ==> NoDot(atoms, i + |PrintItem(item)|)
    ensures Runs(atoms, registry, Stacked(i, below, top, marks), Behind(item, i, below, top, marks, registry))
  {
    hide Runs, KeywordOf, Role, At, NoDot, EndsName, IsHead, PartsOk, PrintParts, NameSlots, Taken;
    DottedRuns(atoms, registry, item.head, item.parts, false, i, below, top, marks);
  }

  /** An item of one token. */
  lemma SmallItemRuns(atoms: seq<Atom>, registry: map<string, string>, item: Item, spot: Spot, lists: bool, i: nat,
                      below: seq<Scope>, top: Scope, marks: seq<Mark>)
    requires item.Leaf? || item.Separator? || item.CallFrom? || item.ClauseWord?
    requires WfItem(item, spot, top.inFrom, top.expectRelation, lists) && At(atoms, i, PrintItem(item)) && Fits(spot, top)
    requires EndsName(PrintItem(item)) ==> NoDot(atoms, i + |PrintItem(item)|)
    ensures Runs(atoms, registry, Stacked(i, below, top, marks), Behind(item, i, below, top, marks, registry))
  {
    hide Runs, ScopeAfterWord, KeywordOf, Role, IsExternalName, ThreePart, IsDistinctFrom, IsQualifiedPart, Taken;
    TakenNone(marks, registry);
    assert atoms[i + 0] == PrintItem(item)[0];
    var a := atoms[i];
    NotExternalName(atoms, i);
    if item.Leaf? {
      LeafItemRuns(atoms, registry, i, below, top, marks);
    } else if item.Separator? {
      CommaRuns(atoms, registry, i, below, top, marks);
    } else {
      WordRuns(atoms, registry, i, below, top, marks);
      QuietWordScope(top, a.value, IsQualifiedPart(atoms, i), IsDistinctFrom(atoms, i));
      assert Set(top, false) == top;
    }
  }

  lemma LeafItemRuns(atoms: seq<Atom>, registry: map<string, string>, i: nat, below: seq<Scope>, top: Scope, marks: seq<Mark>)
    requires i < |atoms| && LeafOk(atoms[i], top.inFrom, top.expectRelation) && NotUsing(top, atoms[i])
    requires !IsExternalName(atoms, i)
    ensures var due := top.expectRelation && (atoms[i].kind == SymbolToken || IsKeyword(atoms[i], Modifier));
      Runs(atoms, registry, Stacked(i, below, top, marks), Stacked(i + 1, below, Set(top, due), marks))
  {
    hide Runs, ScopeAfterWord, KeywordOf, Role, IsExternalName, ThreePart, IsDistinctFrom, IsQualifiedPart, IsLeaf;
    if IsLeaf(atoms[i]) {
      LeafRuns(atoms, registry, i, below, top, marks);
    } else {
      WordRuns(atoms, registry, i, below, top, marks);
      PivotScope(top, atoms[i].value, IsQualifiedPart(atoms, i), IsDistinctFrom(atoms, i));
    }
  }

  lemma NotExternalName(atoms: seq<Atom>, i: nat)
    requires i < |atoms| && (IsName(atoms[i]) ==> NoDot(atoms, i + 1))
    ensures !IsExternalName(atoms, i)
  {
  }

  /** A call's own FROM and the clause words of a call or of a list change nothing. */
  lemma QuietWordScope(top: Scope, word: string, qualified: bool, distinctFrom: bool)
    requires !top.expectRelation && !top.inFrom && !top.allowBareFrom
    requires KeywordOf(word) == ClauseEnd || (KeywordOf(word) == From && !top.queryStarted)
    ensures ScopeAfterWord(top, word, qualified, distinctFrom) == top
  {
    hide KeywordOf, Role;
  }

  lemma DistinctTestRuns(atoms: seq<Atom>, registry: map<string, string>, item: Item, spot: Spot, lists: bool, i: nat,
                         below: seq<Scope>, top: Scope, marks: seq<Mark>)
    requires item.DistinctTest? && WfItem(item, spot, top.inFrom, top.expectRelation, lists)
    requires At(atoms, i, PrintItem(item)) && Fits(spot, top)
    ensures Runs(atoms, registry, Stacked(i, below, top, marks), Behind(item, i, below, top, marks, registry))
  {
    hide Runs, KeywordOf, Role, At, Taken;
    TakenNone(marks, registry);
    DistinctWordsRuns(atoms, registry, item.isWord, item.nots, item.distinct, item.from, i, below, top, marks);
  }

  lemma DistinctWordsRuns(atoms: seq<Atom>, registry: map<string, string>, isWord: Atom, nots: seq<Atom>, distinct: Atom,
                          from: Atom, i: nat, below: seq<Scope>, top: Scope, marks: seq<Mark>)
    requires IsKeyword(isWord, Is) && (nots == [] || (|nots| == 1 && IsKeyword(nots[0], Not)))
    requires IsKeyword(distinct, Distinct) && IsKeyword(from, From)
    requires At(atoms, i, [isWord] + nots + [distinct, from]) && Sane(top)
    ensures Runs(atoms, registry, Stacked(i, below, top, marks),
                 Stacked(i + |nots| + 3, below, Set(top, false), marks))
  {
    hide Runs, ScopeAfterWord, KeywordOf, Role, IsExternalName, ThreePart, Stacked, Set;
    var t1, n := Set(top, false), |nots|;
    var xs := [isWord] + nots + [distinct, from];
    assert xs[0] == isWord && xs[n + 1] == distinct && xs[n + 2] == from;
    assert atoms[i + 0] == isWord && atoms[i + (n + 1)] == distinct && atoms[i + (n + 2)] == from;
    SaneSet(top);
    NotExternalName(atoms, i) by {
      assert n == 1 ==> atoms[i + 1] == xs[1] == nots[0];
    }
    LeafRuns(atoms, registry, i, below, top, marks);
    if n == 1 {
      assert atoms[i + 1] == xs[1] == nots[0];
      LeafRuns(atoms, registry, i + 1, below, t1, marks);
      RunsTrans(atoms, registry, Stacked(i, below, top, marks), Stacked(i + 1, below, t1, marks),
                Stacked(i + 2, below, t1, marks));
    }
    var d := i + n + 1;
    LeafRuns(atoms, registry, d, below, t1, marks);
    assert IsDistinctFrom(atoms, d + 1);
    WordRuns(atoms, registry, d + 1, below, t1, marks);
    DistinctFromScope(t1, from.value, IsQualifiedPart(atoms, d + 1));
    RunsFour(atoms, registry, Stacked(i, below, top, marks), Stacked(d, below, t1, marks),
             Stacked(d + 1, below, t1, marks), Stacked(d + 2, below, t1, marks));
  }

  lemma SaneSet(top: Scope)
    requires Sane(top)
    ensures var t := Set(top, false); Sane(t) && !t.expectRelation && Set(t, false) == t
  {
  }

  lemma DistinctFromScope(top: Scope, word: string, qualified: bool)
    requires !top.expectRelation && KeywordOf(word) == From
    ensures ScopeAfterWord(top, word, qualified, true) == top
  {
    hide KeywordOf, Role;
  }

  /** A number with a point: no three-part name begins in it. */
  lemma DecimalRuns(atoms: seq<Atom>, registry: map<string, string>, item: Item, spot: Spot, lists: bool, i: nat,
                    below: seq<Scope>, top: Scope, marks: seq<Mark>)
    requires item.Decimal? && WfItem(item, spot, top.inFrom, top.expectRelation, lists)
    requires At(atoms, i, PrintItem(item)) && Fits(spot, top)
    requires EndsName(PrintItem(item)) ==> NoDot(atoms, i + |PrintItem(item)|)
    ensures Runs(atoms, registry, Stacked(i, below, top, marks), Behind(item, i, below, top, marks, registry))
  {
    hide Runs, KeywordOf, Role, At, NoDot, DecimalOk, Taken;
    TakenNone(marks, registry);
    DecimalTokensRuns(atoms, registry, item.whole, item.dot, item.fraction, i, below, top, marks);
  }

  lemma DecimalTokensRuns(atoms: seq<Atom>, registry: map<string, string>, whole: seq<Atom>, dot: Atom,
                          fraction: seq<Atom>, i: nat, below: seq<Scope>, top: Scope, marks: seq<Mark>)
    requires DecimalOk(whole, dot, fraction, top.expectRelation) && At(atoms, i, whole + [dot] + fraction) && Sane(top)
    requires EndsName(whole + [dot] + fraction) ==> NoDot(atoms, i + |whole| + 1 + |fraction|)
    ensures Runs(atoms, registry, Stacked(i, below, top, marks),
                 Stacked(i + |whole| + 1 + |fraction|, below, Set(top, false), marks))
  {
    hide Runs, KeywordOf, Role, Stacked, Set, Sane;
    var xs, j := whole + [dot] + fraction, i + |whole|;
    var t0, t1 := Set(top, false), if whole == [] then top else Set(top, false);
    SaneSet(top);
    assert xs[|whole|] == dot && atoms[i + |whole|] == dot;
    if whole == [] {
      AtLength(atoms, i, xs);
      StackedScopes(i, below, top, marks);
      RunsSame(atoms, registry, Stacked(i, below, top, marks));
    } else {
      assert whole == [whole[0]];
      assert xs[0] == whole[0] && atoms[i + 0] == whole[0] && whole[0] in whole;
      WholeAlone(atoms, i, whole[0], dot, fraction, top.expectRelation);
      NumberIsLeaf(whole[0]);
      LeafRuns(atoms, registry, i, below, top, marks);
    }
    SymbolRuns(atoms, registry, j, below, t1, marks);
    RunsTrans(atoms, registry, Stacked(i, below, top, marks), Stacked(j, below, t1, marks),
              Stacked(j + 1, below, t1, marks));
    if fraction != [] {
      assert xs[|whole| + 1] == fraction[0] && atoms[i + (|whole| + 1)] == fraction[0] && fraction[0] in fraction;
      assert EndsName(xs);
      NotExternalName(atoms, j + 1);
      NumberIsLeaf(fraction[0]);
      LeafRuns(atoms, registry, j + 1, below, t1, marks);
      RunsTrans(atoms, registry, Stacked(i, below, top, marks), Stacked(j + 1, below, t1, marks),
                Stacked(j + 2, below, t0, marks));
    }
  }

  lemma NumberIsLeaf(a: Atom)
    requires IsNumber(a) || IsExponent(a)
    ensures IsLeaf(a) && a.kind == WordToken && !IsKeyword(a, Modifier)
  {
    hide KeywordOf, Role;
  }

  /** The whole part of a number begins no three-part name. */
  lemma WholeAlone(atoms: seq<Atom>, i: nat, whole: Atom, dot: Atom, fraction: seq<Atom>, due: bool)
    requires DecimalOk([whole], dot, fraction, due) && At(atoms, i, [whole] + [dot] + fraction)
    requires EndsName([whole] + [dot] + fraction) ==> NoDot(atoms, i + 2 + |fraction|)
    ensures due ==> !IsExternalName(atoms, i)
  {
    hide KeywordOf, Role;
    var xs := [whole] + [dot] + fraction;
    assert xs[1] == dot && atoms[i + 1] == dot;
    if fraction != [] {
      assert xs[2] == fraction[0] && fraction[0] in fraction && EndsName(xs);
    } else {
      assert EndsName(xs);
    }
  }

  /** What follows a closing bracket: the parts of a field. */
  lemma FieldRuns(atoms: seq<Atom>, registry: map<string, string>, parts: seq<Part>, i: nat, j: nat,
                  below: seq<Scope>, top: Scope, mid: Scope, marks: seq<Mark>, after: seq<Mark>)
    requires At(atoms, j, PrintParts(parts)) && PartsOk(parts)
    requires parts != [] ==> !mid.expectRelation
    requires Runs(atoms, registry, Stacked(i, below, top, marks), Stacked(j, below, mid, after))
    ensures Runs(atoms, registry, Stacked(i, below, top, marks), Stacked(j + |PrintParts(parts)|, below, mid, after))
  {
    hide Runs;
    if parts != [] {
      PartsRuns(atoms, registry, parts, j, below, mid, after);
      RunsTrans(atoms, registry, Stacked(i, below, top, marks), Stacked(j, below, mid, after),
                Stacked(j + |PrintParts(parts)|, below, mid, after));
    }
  }

  lemma GroupRuns(atoms: seq<Atom>, registry: map<string, string>, item: Item, spot: Spot, lists: bool, i: nat,
                  below: seq<Scope>, top: Scope, marks: seq<Mark>)
    requires item.Group? && WfItem(item, spot, top.inFrom, top.expectRelation, lists)
    requires At(atoms, i, PrintItem(item)) && Fits(spot, top)
    ensures Runs(atoms, registry, Stacked(i, below, top, marks), Behind(item, i, below, top, marks, registry))
    decreases item, 0
  {
    hide Runs, KeywordOf, Role, WfExpr, Taken, PartsOk, PrintParts, PrintExpr, ExprSlots, ExprDue, At, NoDot;
    var Group(open, body, close, parts) := item;
    var inside := PrintExpr(body);
    AtSplit(atoms, i, Enclosed(open, inside, close), PrintParts(parts));
    AtEnclosed(atoms, i, open, inside, close);
    var inner := Inner(atoms, i, top);
    InsideStart(atoms, i, inside);
    CloseIsNoDot(atoms, i + 1 + |inside|);
    ExprRuns(atoms, registry, body, GroupSpot(inside, top.expectRelation), lists, i + 1, below + [Set(top, false)], inner,
             marks);
    var after := marks + Taken(ExprSlots(body, i + 1, top.expectRelation, top.expectRelation), registry);
    EnclosedRuns(atoms, registry, i, |inside|, below, top,
                 Set(inner, ExprDue(body, top.expectRelation, top.expectRelation)), marks, after);
    FieldRuns(atoms, registry, parts, i, i + |inside| + 2, below, top, Set(top, false), marks, after);
  }

  lemma InsideStart(atoms: seq<Atom>, i: nat, xs: seq<Atom>)
    requires At(atoms, i + 1, xs) && i + 1 + |xs| < |atoms| && IsSymbol(atoms[i + 1 + |xs|], ')')
    ensures FromAt(atoms, i + 1) == StartsFrom(xs)
  {
    hide KeywordOf, Role;
    if xs != [] {
      assert atoms[i + 1 + 0] == xs[0];
    }
  }

  lemma SymbolNoDot(atoms: seq<Atom>, i: nat, c: char)
    requires i < |atoms| && IsSymbol(atoms[i], c) && c != '.'
    ensures NoDot(atoms, i)
  {
  }

  lemma CloseIsNoDot(atoms: seq<Atom>, i: nat)
    requires i < |atoms| && IsOneOf(atoms[i], ")]}")
    ensures NoDot(atoms, i)
  {
  }

  lemma BracketRuns(atoms: seq<Atom>, registry: map<string, string>, item: Item, spot: Spot, lists: bool, i: nat,
                    below: seq<Scope>, top: Scope, marks: seq<Mark>)
    requires item.Bracket? && WfItem(item, spot, top.inFrom, top.expectRelation, lists)
    requires At(atoms, i, PrintItem(item)) && Fits(spot, top)
    ensures Runs(atoms, registry, Stacked(i, below, top, marks), Behind(item, i, below, top, marks, registry))
    decreases item, 0
  {
    hide Runs, KeywordOf, Role, WfExpr, Taken, PartsOk, PrintParts, PrintExpr, ExprSlots, ExprDue, At, NoDot;
    var Bracket(open, body, close, parts) := item;
    var inside := PrintExpr(body);
    var j := i + 1 + |inside|;
    AtSplit(atoms, i, Enclosed(open, inside, close), PrintParts(parts));
    AtEnclosed(atoms, i, open, inside, close);
    CloseIsNoDot(atoms, j);
    SymbolRuns(atoms, registry, i, below, top, marks);
    ExprRuns(atoms, registry, body, BracketSpot(spot, top.inFrom, lists), lists, i + 1, below, top, marks);
    var mid := Set(top, ExprDue(body, top.inFrom, top.expectRelation));
    var after := marks + Taken(ExprSlots(body, i + 1, top.inFrom, top.expectRelation), registry);
    SymbolRuns(atoms, registry, j, below, mid, after);
    RunsFour(atoms, registry, Stacked(i, below, top, marks), Stacked(i + 1, below, top, marks),
             Stacked(j, below, mid, after), Stacked(j + 1, below, mid, after));
    FieldRuns(atoms, registry, parts, i, j + 1, below, top, mid, marks, after);
    assert parts != [] ==> mid == Set(top, false);
  }

  lemma BareFromScope(top: Scope, word: string)
    requires KeywordOf(word) == From && (top.queryStarted || top.allowBareFrom)
    ensures ScopeAfterWord(top, word, false, false) == top.(inFrom := true, expectRelation := true)
  {
    hide KeywordOf, Role;
  }

  /** Directly behind a parenthesis a word is no part of a name and FROM no part of DISTINCT FROM. */
  lemma OpenBefore(atoms: seq<Atom>, i: nat)
    requires i + 1 < |atoms| && IsSymbol(atoms[i], '(')
    ensures !IsQualifiedPart(atoms, i + 1) && !IsDistinctFrom(atoms, i + 1)
  {
    hide KeywordOf, Role;
  }

  /** The call of `trim` that begins with its FROM: what follows is taken for a FROM list. */
  lemma TrimRuns(atoms: seq<Atom>, registry: map<string, string>, item: Item, spot: Spot, lists: bool, i: nat,
                 below: seq<Scope>, top: Scope, marks: seq<Mark>)
    requires item.TrimFrom? && WfItem(item, spot, top.inFrom, top.expectRelation, lists)
    requires At(atoms, i, PrintItem(item)) && Fits(spot, top)
    ensures Runs(atoms, registry, Stacked(i, below, top, marks), Behind(item, i, below, top, marks, registry))
    decreases item, 0
  {
    hide Runs, KeywordOf, Role, ScopeAfterWord, WfExpr, Taken, PrintExpr, ExprSlots, ExprDue, At, NoDot,
      IsExternalName, ThreePart;
    var TrimFrom(trim, open, from, body, close) := item;
    var inside := PrintExpr(body);
    var n := 1 + |inside|;
    AtOne(atoms, i, trim, Enclosed(open, [from] + inside, close));
    AtEnclosed(atoms, i + 1, open, [from] + inside, close);
    AtOne(atoms, i + 2, from, inside);
    NotExternal(atoms, i) by { SymbolNoDot(atoms, i + 1, '('); }
    LeafRuns(atoms, registry, i, below, top, marks);
    var t1 := Set(top, false);
    var inner := Inner(atoms, i + 1, t1);
    OpenBefore(atoms, i + 1);
    WordRuns(atoms, registry, i + 2, below + [Set(t1, false)], inner, marks);
    BareFromScope(inner, from.value);
    var list := inner.(inFrom := true, expectRelation := true);
    CloseIsNoDot(atoms, i + 2 + n);
    ExprRuns(atoms, registry, body, PLAIN_LIST, lists, i + 3, below + [Set(t1, false)], list, marks);
    var after := marks + Taken(ExprSlots(body, i + 3, true, true), registry);
    var last := Set(list, ExprDue(body, true, true));
    RunsTrans(atoms, registry, Stacked(i + 2, below + [Set(t1, false)], inner, marks),
              Stacked(i + 3, below + [Set(t1, false)], list, marks), Stacked(i + 2 + n, below + [Set(t1, false)], last, after));
    EnclosedRuns(atoms, registry, i + 1, n, below, t1, last, marks, after);
    RunsTrans(atoms, registry, Stacked(i, below, top, marks), Stacked(i + 1, below, t1, marks),
              Stacked(i + n + 3, below, t1, after));
  }

  lemma SubqueryRuns(atoms: seq<Atom>, registry: map<string, string>, item: Item, spot: Spot, lists: bool, i: nat,
                     below: seq<Scope>, top: Scope, marks: seq<Mark>)
    requires item.Subquery? && WfItem(item, spot, top.inFrom, top.expectRelation, lists)
    requires At(atoms, i, PrintItem(item)) && Fits(spot, top)
    ensures Runs(atoms, registry, Stacked(i, below, top, marks), Behind(item, i, below, top, marks, registry))
    decreases item, 0
  {
    hide Runs, KeywordOf, Role, WfQuery, Taken, PartsOk, PrintParts, PrintQuery, QuerySlots, At;
    var Subquery(open, query, close, parts) := item;
    AtSplit(atoms, i, Enclosed(open, PrintQuery(query), close), PrintParts(parts));
    EnclosedQueryRuns(atoms, registry, open, query, close, lists, i, below, top, marks);
    FieldRuns(atoms, registry, parts, i, i + |PrintQuery(query)| + 2, below, top, Set(top, false), marks,
              marks + Taken(QuerySlots(query, i + 1, top.expectRelation, top.expectRelation), registry));
  }

  /** A query in parentheses, in an expression or in relation position. */
  lemma EnclosedQueryRuns(atoms: seq<Atom>, registry: map<string, string>, open: Atom, query: Query, close: Atom,
                          lists: bool, i: nat, below: seq<Scope>, top: Scope, marks: seq<Mark>)
    requires IsSymbol(open, '(') && IsSymbol(close, ')')
    requires WfQuery(query, top.expectRelation, top.expectRelation, lists)
    requires At(atoms, i, Enclosed(open, PrintQuery(query), close)) && Sane(top)
    ensures Runs(atoms, registry, Stacked(i, below, top, marks),
                 Stacked(i + |PrintQuery(query)| + 2, below, Set(top, false),
                         marks + Taken(QuerySlots(query, i + 1, top.expectRelation, top.expectRelation), registry)))
    decreases query, 4
  {
    hide Runs, KeywordOf, Role, WfQuery, Taken, PrintQuery, QuerySlots, At, IsDistinctFrom, IsQualifiedPart, NoDot,
      FromFirst;
    var inside := PrintQuery(query);
    AtEnclosed(atoms, i, open, inside, close);
    OpeningQuery(query, top.expectRelation, top.expectRelation, lists);
    OpenBefore(atoms, i);
    CloseIsNoDot(atoms, i + 1 + |inside|);
    InsideStart(atoms, i, inside);
    if FromFirst(query) {
      FromFirstStarts(query, top.expectRelation, top.expectRelation, lists);
    }
    var last := QueryRuns(atoms, registry, query, lists, i + 1, below + [Set(top, false)], Inner(atoms, i, top), marks);
    EnclosedRuns(atoms, registry, i, |inside|, below, top, last, marks,
                 marks + Taken(QuerySlots(query, i + 1, top.expectRelation, top.expectRelation), registry));
  }

  lemma FromFirstStarts(q: Query, inFrom: bool, due: bool, lists: bool)
    requires WfQuery(q, inFrom, due, lists) && FromFirst(q)
    ensures StartsFrom(PrintQuery(q))
  {
    hide KeywordOf, Role, PrintExpr, PrintCore, PrintTails, WfExpr, WfCore, WfTails, CoreEnd, TermEnd, EndsPoint,
      Starts, QuantifierOk, StartsFrom;
    if q.WithQuery? {
      StartsWith(q.with, PrintExpr(q.ctes) + PrintQuery(q.body));
      assert PrintQuery(q) == [q.with] + (PrintExpr(q.ctes) + PrintQuery(q.body));
    } else {
      FromCoreStarts(q.term.core, inFrom, due, lists);
      var x, y := PrintCore(q.term.core), PrintTails(q.term.tails);
      StartsLonger(x, y);
      if q.Combined? {
        StartsLonger(x + y, [q.op] + q.quantifier + PrintQuery(q.rest));
        assert PrintQuery(q) == x + y + ([q.op] + q.quantifier + PrintQuery(q.rest));
      }
    }
  }

  lemma StartsWith(a: Atom, xs: seq<Atom>)
    requires IsKeyword(a, From) || IsKeyword(a, With)
    ensures StartsFrom([a] + xs)
  {
  }

  lemma StartsLonger(xs: seq<Atom>, ys: seq<Atom>)
    requires StartsFrom(xs)
    ensures StartsFrom(xs + ys)
  {
    hide KeywordOf, Role;
  }

  lemma FromCoreStarts(c: Core, inFrom: bool, due: bool, lists: bool)
    requires c.FromCore? && WfCore(c, inFrom, due, lists)
    ensures StartsFrom(PrintCore(c))
  {
    hide KeywordOf, Role, PrintRelations, PrintPicked, PrintExpr, WfExpr, WfRelations, CoreEnd, EndsPoint, Starts,
      StartsFrom;
    var ys := PrintRelations(c.clause.relations) + PrintPicked(c.picked);
    StartsWith(c.clause.from, ys);
    assert PrintCore(c) == [c.clause.from] + ys;
  }

  /** The first item of an expression and the rest. */
  lemma ConsIs(item: Item, rest: Expr, spot: Spot, lists: bool, i: nat, inFrom: bool, due: bool)
    requires WfExpr(Cons(item, rest), spot, inFrom, due, lists)
    ensures var e, next := Cons(item, rest), ItemDue(item, inFrom, due);
      && WfItem(item, spot, inFrom, due, lists) && WfExpr(rest, spot, inFrom, next, lists)
      && (Starts(PrintExpr(rest), '.') ==> !EndsName(PrintItem(item)))
      && PrintExpr(e) == PrintItem(item) + PrintExpr(rest)
      && ExprSlots(e, i, inFrom, due) ==
         ItemSlots(item, i, inFrom, due) + ExprSlots(rest, i + |PrintItem(item)|, inFrom, next)
      && ExprDue(e, inFrom, due) == ExprDue(rest, inFrom, next)
  {
    hide WfItem, PrintItem, ItemSlots, ItemDue, EndsName, StartsName, StartsFromQuery, Starts;
  }

  lemma ExprRuns(atoms: seq<Atom>, registry: map<string, string>, e: Expr, spot: Spot, lists: bool, i: nat,
                 below: seq<Scope>, top: Scope, marks: seq<Mark>)
    requires WfExpr(e, spot, top.inFrom, top.expectRelation, lists) && At(atoms, i, PrintExpr(e)) && Fits(spot, top)
    requires NoDot(atoms, i + |PrintExpr(e)|)
    ensures Runs(atoms, registry, Stacked(i, below, top, marks),
                 Stacked(i + |PrintExpr(e)|, below, Set(top, ExprDue(e, top.inFrom, top.expectRelation)),
                         marks + Taken(ExprSlots(e, i, top.inFrom, top.expectRelation), registry)))
    decreases e, 2
  {
    hide *;
    match e
    case Nil => NilRuns(atoms, registry, i, below, top, marks);
    case Cons(item, rest) =>
      ConsIs(item, rest, spot, lists, i, top.inFrom, top.expectRelation);
      ConsRuns(atoms, registry, item, rest, PrintItem(item), PrintExpr(rest), spot, lists, i, below, top, marks);
  }

  lemma NilRuns(atoms: seq<Atom>, registry: map<string, string>, i: nat, below: seq<Scope>, top: Scope, marks: seq<Mark>)
    requires At(atoms, i, PrintExpr(Nil))
    ensures Runs(atoms, registry, Stacked(i, below, top, marks),
                 Stacked(i + |PrintExpr(Nil)|, below, Set(top, ExprDue(Nil, top.inFrom, top.expectRelation)),
                         marks + Taken(ExprSlots(Nil, i, top.inFrom, top.expectRelation), registry)))
  {
    hide Runs, Taken;
    TakenNone(marks, registry);
    assert Set(top, top.expectRelation) == top;
    RunsSame(atoms, registry, Stacked(i, below, top, marks));
  }

  lemma ConsRuns(atoms: seq<Atom>, registry: map<string, string>, item: Item, rest: Expr, x: seq<Atom>, y: seq<Atom>,
                 spot: Spot, lists: bool, i: nat, below: seq<Scope>, top: Scope, marks: seq<Mark>)
    requires x == PrintItem(item) && y == PrintExpr(rest)
    requires WfItem(item, spot, top.inFrom, top.expectRelation, lists) && Fits(spot, top)
    requires WfExpr(rest, spot, top.inFrom, ItemDue(item, top.inFrom, top.expectRelation), lists)
    requires Starts(y, '.') ==> !EndsName(x)
    requires At(atoms, i, x + y) && NoDot(atoms, i + |x| + |y|)
    ensures
      var next := ItemDue(item, top.inFrom, top.expectRelation);
      var slots := ItemSlots(item, i, top.inFrom, top.expectRelation) + ExprSlots(rest, i + |x|, top.inFrom, next);
      Runs(atoms, registry, Stacked(i, below, top, marks),
           Stacked(i + |x| + |y|, below, Set(top, ExprDue(rest, top.inFrom, next)), marks + Taken(slots, registry)))
    decreases Cons(item, rest), 1
  {
    hide *;
    var j, due := i + |x|, ItemDue(item, top.inFrom, top.expectRelation);
    var t1, last := Set(top, due), Set(top, ExprDue(rest, top.inFrom, due));
    var head, tail := ItemSlots(item, i, top.inFrom, top.expectRelation), ExprSlots(rest, j, top.inFrom, due);
    var mid := marks + Taken(head, registry);
    AtSplit(atoms, i, x, y);
    if !Starts(y, '.') {
      FirstNoDot(atoms, j, y);
    }
    ItemRuns(atoms, registry, item, spot, lists, i, below, top, marks);
    BehindIs(item, i, below, top, marks, registry);
    FitsOn(spot, top, item);
    SetTwice(top, due, ExprDue(rest, top.inFrom, due));
    ExprRuns(atoms, registry, rest, spot, lists, j, below, t1, mid);
    TakenTwo(marks, head, tail, registry);
    RunsTrans(atoms, registry, Stacked(i, below, top, marks), Stacked(j, below, t1, mid),
              Stacked(j + |y|, below, last, mid + Taken(tail, registry)));
  }

  lemma BehindIs(item: Item, i: nat, below: seq<Scope>, top: Scope, marks: seq<Mark>, registry: map<string, string>)
    ensures Behind(item, i, below, top, marks, registry) ==
      Stacked(i + |PrintItem(item)|, below, Set(top, ItemDue(item, top.inFrom, top.expectRelation)),
              marks + Taken(ItemSlots(item, i, top.inFrom, top.expectRelation), registry))
  {
    hide PrintItem, ItemDue, ItemSlots, Taken, Stacked, Set;
  }

  lemma SetTwice(top: Scope, a: bool, b: bool)
    ensures Set(Set(top, a), b) == Set(top, b)
    ensures Set(top, a).inFrom == top.inFrom && Set(top, a).expectRelation == a
  {
  }

  // ---------------------------------------------------------------- queries

  lemma QueryRuns(atoms: seq<Atom>, registry: map<string, string>, q: Query, lists: bool, i: nat,
                  below: seq<Scope>, top: Scope, marks: seq<Mark>) returns (last: Scope)
    requires WfQuery(q, top.inFrom, top.expectRelation, lists) && At(atoms, i, PrintQuery(q)) && Calm(top)
    requires !IsQualifiedPart(atoms, i) && i < |atoms| && !IsDistinctFrom(atoms, i) && NoDot(atoms, i + |PrintQuery(q)|)
    requires (FromFirst(q) ==> top.allowBareFrom || top.queryStarted) && (PivotFirst(q) ==> !top.queryStarted)
    ensures Runs(atoms, registry, Stacked(i, below, top, marks),
                 Stacked(i + |PrintQuery(q)|, below, last,
                         marks + Taken(QuerySlots(q, i, top.inFrom, top.expectRelation), registry)))
    decreases q, 3
  {
    hide Runs, WfTerm, PrintTerm, TermSlots, TermEnd, Taken;
    match q
    case Single(term) =>
      last := TermRuns(atoms, registry, term, lists, i, below, top, marks);
    case Combined(term, op, quantifier, rest) =>
      last := CombinedRuns(atoms, registry, q, lists, i, below, top, marks);
    case WithQuery(with, ctes, body) =>
      last := WithRuns(atoms, registry, q, lists, i, below, top, marks);
  }

  /** A set operator behind a dot is not seen. */
  lemma SetOperatorScope(top: Scope, word: string, qualified: bool, distinctFrom: bool)
    requires KeywordOf(word) == SetOperator && !top.writeSourcePending
    ensures ScopeAfterWord(top, word, qualified, distinctFrom) ==
      if qualified then Set(top, false)
      else top.(inFrom := false, expectRelation := false, queryStarted := false, allowBareFrom := true)
  {
    hide KeywordOf, Role;
  }

  lemma {:induction false} WordsRuns(atoms: seq<Atom>, registry: map<string, string>, words: seq<Atom>, i: nat,
                                     below: seq<Scope>, top: Scope, marks: seq<Mark>)
    requires At(atoms, i, words) && !top.expectRelation && Calm(top) && forall w | w in words :: IsOrdinary(w)
    ensures Runs(atoms, registry, Stacked(i, below, top, marks), Stacked(i + |words|, below, top, marks))
    decreases |words|
  {
    hide Runs, IsOrdinary;
    if words == [] {
      RunsSame(atoms, registry, Stacked(i, below, top, marks));
    } else {
      assert words == [words[0]] + words[1..];
      AtOne(atoms, i, words[0], words[1..]);
      assert words[0] in words && Set(top, false) == top;
      LeafRuns(atoms, registry, i, below, top, marks);
      WordsRuns(atoms, registry, words[1..], i + 1, below, top, marks);
      RunsTrans(atoms, registry, Stacked(i, below, top, marks), Stacked(i + 1, below, top, marks),
                Stacked(i + |words|, below, top, marks));
    }
  }

  lemma CombinedRuns(atoms: seq<Atom>, registry: map<string, string>, q: Query, lists: bool, i: nat,
                     below: seq<Scope>, top: Scope, marks: seq<Mark>) returns (last: Scope)
    requires q.Combined? && WfQuery(q, top.inFrom, top.expectRelation, lists) && At(atoms, i, PrintQuery(q)) && Calm(top)
    requires !IsQualifiedPart(atoms, i) && i < |atoms| && !IsDistinctFrom(atoms, i) && NoDot(atoms, i + |PrintQuery(q)|)
    requires (FromFirst(q) ==> top.allowBareFrom || top.queryStarted) && (PivotFirst(q) ==> !top.queryStarted)
    ensures Runs(atoms, registry, Stacked(i, below, top, marks),
                 Stacked(i + |PrintQuery(q)|, below, last,
                         marks + Taken(QuerySlots(q, i, top.inFrom, top.expectRelation), registry)))
    decreases q, 2
  {
    hide Runs, KeywordOf, Role, WfTerm, PrintTerm, TermSlots, ScopeAfterWord, IsDistinctFrom, IsQualifiedPart,
      NoDot, At, IsExternalName, ThreePart, Taken, EndsPoint, TermEnd;
    var Combined(term, op, quantifier, rest) := q;
    var x, z := PrintTerm(term), PrintQuery(rest);
    var j := i + |x|;
    var k := j + 1 + |quantifier|;
    var dotted := EndsPoint(x);
    CombinedSegments(atoms, q, top.inFrom, top.expectRelation, lists, i);
    var t1 := TermRuns(atoms, registry, term, lists, i, below, top, marks);
    var m1 := marks + Taken(TermSlots(term, i, top.inFrom, top.expectRelation), registry);
    WordRuns(atoms, registry, j, below, t1, m1);
    SetOperatorScope(t1, op.value, dotted, IsDistinctFrom(atoms, j));
    var t2 := if dotted then Set(t1, false)
              else t1.(inFrom := false, expectRelation := false, queryStarted := false, allowBareFrom := true);
    WordsRuns(atoms, registry, quantifier, j + 1, below, t2, m1);
    last := QueryRuns(atoms, registry, rest, lists, k, below, t2, m1);
    var m2 := m1 + Taken(QuerySlots(rest, k, t2.inFrom, false), registry);
    TakenTwo(marks, TermSlots(term, i, top.inFrom, top.expectRelation), QuerySlots(rest, k, t2.inFrom, false), registry);
    RunsFour(atoms, registry, Stacked(i, below, top, marks), Stacked(j, below, t1, m1), Stacked(j + 1, below, t2, m1),
             Stacked(k, below, t2, m1));
    RunsTrans(atoms, registry, Stacked(i, below, top, marks), Stacked(k, below, t2, m1),
              Stacked(k + |z|, below, last, m2));
  }

  /** The tokens around a set operator. */
  lemma CombinedSegments(atoms: seq<Atom>, q: Query, inFrom: bool, due: bool, lists: bool, i: nat)
    requires q.Combined? && WfQuery(q, inFrom, due, lists) && At(atoms, i, PrintQuery(q)) && !IsQualifiedPart(atoms, i)
    ensures var x := PrintTerm(q.term); var j := i + |x|; var k := j + 1 + |q.quantifier|;
      && At(atoms, i, x) && NoDot(atoms, j) && j < |atoms| && atoms[j] == q.op && !IsExternalName(atoms, j)
      && IsQualifiedPart(atoms, j) == EndsPoint(x) && At(atoms, j + 1, q.quantifier) && At(atoms, k, PrintQuery(q.rest))
      && k < |atoms| && !IsQualifiedPart(atoms, k) && !IsDistinctFrom(atoms, k)
      && i + |PrintQuery(q)| == k + |PrintQuery(q.rest)|
  {
    hide KeywordOf, Role, WfTerm, PrintTerm, PrintQuery, WfQuery, IsDistinctFrom, IsQualifiedPart, NoDot, At,
      IsExternalName, ThreePart, EndsPoint, TermEnd, QuantifierOk;
    CombinedIs(q, inFrom, due, lists);
    TermNotEmpty(q, inFrom, due, lists);
    var x, y, z := PrintTerm(q.term), q.quantifier, PrintQuery(q.rest);
    var j := i + |x|;
    assert x + [q.op] + y + z == x + [q.op] + (y + z);
    AtThree(atoms, i, x, [q.op], y + z);
    AtOne(atoms, j, q.op, []) by { assert [q.op] + [] == [q.op]; }
    AtSplit(atoms, j + 1, y, z);
    QualifiedAfter(atoms, i, x);
    OperatorAlone(atoms, j, y, z);
    hide Starts;
  }

  lemma TermNotEmpty(q: Query, inFrom: bool, due: bool, lists: bool)
    requires q.Combined? && WfQuery(q, inFrom, due, lists)
    ensures PrintTerm(q.term) != []
  {
    hide KeywordOf, Role, WfTails, PrintTails, PrintCore, WfCore, CoreEnd, TermEnd, QuantifierOk, EndsPoint, Starts;
    OpeningCore(q.term.core, inFrom, due, lists);
  }

  lemma CombinedIs(q: Query, inFrom: bool, due: bool, lists: bool)
    requires q.Combined? && WfQuery(q, inFrom, due, lists)
    ensures PrintQuery(q) == PrintTerm(q.term) + [q.op] + q.quantifier + PrintQuery(q.rest)
    ensures IsKeyword(q.op, SetOperator) && QuantifierOk(q.quantifier)
    ensures PrintQuery(q.rest) != [] && !Starts(PrintQuery(q.rest), '.')
  {
    hide KeywordOf, Role, WfTerm, PrintTerm, TermEnd, QuantifierOk, EndsPoint, Starts;
    OpeningQuery(q.rest, EndsPoint(PrintTerm(q.term)) && TermEnd(q.term, inFrom, due), false, lists);
  }

  lemma OperatorAlone(atoms: seq<Atom>, j: nat, words: seq<Atom>, z: seq<Atom>)
    requires j < |atoms| && IsKeyword(atoms[j], SetOperator) && QuantifierOk(words)
    requires At(atoms, j + 1, words) && At(atoms, j + 1 + |words|, z) && z != [] && !Starts(z, '.')
    ensures var k := j + 1 + |words|;
      && NoDot(atoms, j) && !IsExternalName(atoms, j)
      && k < |atoms| && !IsQualifiedPart(atoms, k) && !IsDistinctFrom(atoms, k)
  {
    hide KeywordOf, Role;
    var k := j + 1 + |words|;
    assert atoms[k + 0] == z[0];
    if words != [] {
      assert atoms[j + 1 + 0] == words[0] && words[0] in words;
      assert atoms[j + 1 + (|words| - 1)] == words[|words| - 1] && words[|words| - 1] in words;
      assert atoms[k - 1] == words[|words| - 1];
    }
    NotAfterDistinct(atoms, j, words);
    NotExternal(atoms, j);
  }

  lemma WithRuns(atoms: seq<Atom>, registry: map<string, string>, q: Query, lists: bool, i: nat,
                 below: seq<Scope>, top: Scope, marks: seq<Mark>) returns (last: Scope)
    requires q.WithQuery? && WfQuery(q, top.inFrom, top.expectRelation, lists) && At(atoms, i, PrintQuery(q)) && Calm(top)
    requires NoDot(atoms, i + |PrintQuery(q)|)
    requires (FromFirst(q) ==> top.allowBareFrom || top.queryStarted) && (PivotFirst(q) ==> !top.queryStarted)
    ensures Runs(atoms, registry, Stacked(i, below, top, marks),
                 Stacked(i + |PrintQuery(q)|, below, last,
                         marks + Taken(QuerySlots(q, i, top.inFrom, top.expectRelation), registry)))
    decreases q, 2
  {
    hide Runs, KeywordOf, Role, WfExpr, PrintExpr, ExprSlots, ScopeAfterWord, IsDistinctFrom, IsQualifiedPart,
      NoDot, At, IsExternalName, ThreePart, Taken, ExprDue;
    var WithQuery(with, ctes, body) := q;
    var y, z := PrintExpr(ctes), PrintQuery(body);
    var k := i + 1 + |y|;
    AtThree(atoms, i, [with], y, z);
    AtOne(atoms, i, with, []) by { assert [with] + [] == [with]; }
    WithSegments(atoms, i, y);
    OpeningQuery(body, top.inFrom, false, lists);
    FirstNoDot(atoms, k, z);
    AtLength(atoms, k, z);
    WordRuns(atoms, registry, i, below, top, marks);
    OrdinaryScope(top, with.value, IsQualifiedPart(atoms, i), IsDistinctFrom(atoms, i));
    var t1 := Set(top, false);
    ExprRuns(atoms, registry, ctes, CTES, lists, i + 1, below, t1, marks);
    var m1 := marks + Taken(ExprSlots(ctes, i + 1, top.inFrom, false), registry);
    last := QueryRuns(atoms, registry, body, lists, k, below, t1, m1);
    var m2 := m1 + Taken(QuerySlots(body, k, top.inFrom, false), registry);
    TakenTwo(marks, ExprSlots(ctes, i + 1, top.inFrom, false), QuerySlots(body, k, top.inFrom, false), registry);
    RunsFour(atoms, registry, Stacked(i, below, top, marks), Stacked(i + 1, below, t1, marks), Stacked(k, below, t1, m1),
             Stacked(k + |z|, below, last, m2));
  }

  lemma WithSegments(atoms: seq<Atom>, i: nat, y: seq<Atom>)
    requires i < |atoms| && At(atoms, i + 1, y) && y != [] && !Starts(y, '.') && IsSymbol(y[|y| - 1], ')')
    ensures !IsExternalName(atoms, i) && !IsQualifiedPart(atoms, i + 1 + |y|)
    ensures i + 1 + |y| < |atoms| ==> !IsDistinctFrom(atoms, i + 1 + |y|)
  {
    hide KeywordOf, Role;
    assert atoms[i + 1 + 0] == y[0] && atoms[i + 1 + (|y| - 1)] == y[|y| - 1];
    NotExternal(atoms, i);
  }

  lemma TermRuns(atoms: seq<Atom>, registry: map<string, string>, t: Term, lists: bool, i: nat,
                 below: seq<Scope>, top: Scope, marks: seq<Mark>) returns (last: Scope)
    requires WfTerm(t, top.inFrom, top.expectRelation, lists) && At(atoms, i, PrintTerm(t)) && Calm(top)
    requires !IsQualifiedPart(atoms, i) && i < |atoms| && !IsDistinctFrom(atoms, i) && NoDot(atoms, i + |PrintTerm(t)|)
    requires (t.core.FromCore? ==> top.allowBareFrom || top.queryStarted) && (t.core.PivotCore? ==> !top.queryStarted)
    ensures Calm(last) && last.inFrom == TermEnd(t, top.inFrom, top.expectRelation)
    ensures Runs(atoms, registry, Stacked(i, below, top, marks),
                 Stacked(i + |PrintTerm(t)|, below, last,
                         marks + Taken(TermSlots(t, i, top.inFrom, top.expectRelation), registry)))
    decreases t, 3
  {
    hide Runs, IsDistinctFrom, IsQualifiedPart, NoDot, At, Taken, EndsPoint, PrintCore, PrintTails, WfCore, WfTails,
      CoreSlots, TailsSlots, CoreEnd, TailsEnd;
    var x, y := PrintCore(t.core), PrintTails(t.tails);
    var j := i + |x|;
    var kept, dotted := CoreEnd(t.core, top.inFrom, top.expectRelation), EndsPoint(x);
    AtSplit(atoms, i, x, y);
    OpeningCore(t.core, top.inFrom, top.expectRelation, lists);
    OpeningTails(t.tails, kept, dotted, lists);
    FirstNoDot(atoms, j, y);
    QualifiedAfter(atoms, i, x);
    var t1 := CoreRuns(atoms, registry, t.core, lists, i, below, top, marks);
    var m1 := marks + Taken(CoreSlots(t.core, i, top.inFrom, top.expectRelation), registry);
    last := TailsRuns(atoms, registry, t.tails, dotted, lists, j, below, t1, m1);
    TakenTwo(marks, CoreSlots(t.core, i, top.inFrom, top.expectRelation), TailsSlots(t.tails, j, kept, dotted), registry);
    RunsTrans(atoms, registry, Stacked(i, below, top, marks), Stacked(j, below, t1, m1),
              Stacked(j + |y|, below, last, m1 + Taken(TailsSlots(t.tails, j, kept, dotted), registry)));
  }

  lemma ValuesScope(top: Scope, word: string, distinctFrom: bool)
    requires KeywordOf(word) == Values && Calm(top)
    ensures var after := ScopeAfterWord(top, word, false, distinctFrom);
      after.inFrom == (top.inFrom && !top.expectRelation) && !after.expectRelation && Calm(after)
  {
    hide KeywordOf, Role;
  }

  lemma CoreRuns(atoms: seq<Atom>, registry: map<string, string>, c: Core, lists: bool, i: nat,
                 below: seq<Scope>, top: Scope, marks: seq<Mark>) returns (last: Scope)
    requires WfCore(c, top.inFrom, top.expectRelation, lists) && At(atoms, i, PrintCore(c)) && Calm(top)
    requires !IsQualifiedPart(atoms, i) && i < |atoms| && !IsDistinctFrom(atoms, i) && NoDot(atoms, i + |PrintCore(c)|)
    requires (c.FromCore? ==> top.allowBareFrom || top.queryStarted) && (c.PivotCore? ==> !top.queryStarted)
    ensures Calm(last) && last.inFrom == CoreEnd(c, top.inFrom, top.expectRelation)
    ensures Runs(atoms, registry, Stacked(i, below, top, marks),
                 Stacked(i + |PrintCore(c)|, below, last,
                         marks + Taken(CoreSlots(c, i, top.inFrom, top.expectRelation), registry)))
    decreases c, 3
  {
    hide Runs, KeywordOf, Role, ScopeAfterWord, IsExternalName, ThreePart, Taken, WfExpr, WfFrom, WfQuery,
      PrintExpr, PrintFrom, PrintPicked, ExprSlots, FromSlots, FromEnd, PickedEnd, EndsPoint, EndsTest, NoDot, At,
      ExprDue, QuerySlots;
    match c
    case SelectCore(_, _, _) =>
      last := SelectRuns(atoms, registry, c, lists, i, below, top, marks);
    case FromCore(_, _) =>
      last := FromCoreRuns(atoms, registry, c, lists, i, below, top, marks);
    case ValuesCore(values, rows) =>
      AtOne(atoms, i, values, PrintExpr(rows));
      FirstNoDot(atoms, i + 1, PrintExpr(rows));
      NotExternal(atoms, i);
      WordRuns(atoms, registry, i, below, top, marks);
      ValuesScope(top, values.value, IsDistinctFrom(atoms, i));
      var t1 := ScopeAfterWord(top, values.value, false, IsDistinctFrom(atoms, i));
      ExprRuns(atoms, registry, rows, RowsSpot(t1.inFrom, lists), lists, i + 1, below, t1, marks);
      last := Set(t1, ExprDue(rows, t1.inFrom, false));
      StillSane(t1, rows);
      RunsTrans(atoms, registry, Stacked(i, below, top, marks), Stacked(i + 1, below, t1, marks),
                Stacked(i + 1 + |PrintExpr(rows)|, below, last,
                        marks + Taken(ExprSlots(rows, i + 1, t1.inFrom, false), registry)));
    case PivotCore(_, _) =>
      last := PivotRuns(atoms, registry, c, lists, i, below, top, marks);
    case ParenCore(open, query, close) =>
      last := Set(top, false);
      EnclosedQueryRuns(atoms, registry, open, query, close, lists, i, below, top, marks);
  }

  /** A PIVOT opens a query unless one has begun or the FROM list goes on. */
  lemma PivotScope(top: Scope, word: string, qualified: bool, distinctFrom: bool)
    requires KeywordOf(word) == Pivot
    ensures ScopeAfterWord(top, word, qualified, distinctFrom) ==
      if !qualified && !top.queryStarted && (!top.inFrom || top.expectRelation) then
        top.(inFrom := true, expectRelation := true, queryStarted := true, allowBareFrom := false)
      else Set(top, false)
  {
    hide KeywordOf, Role;
  }

  lemma PivotRuns(atoms: seq<Atom>, registry: map<string, string>, c: Core, lists: bool, i: nat,
                  below: seq<Scope>, top: Scope, marks: seq<Mark>) returns (last: Scope)
    requires c.PivotCore? && WfCore(c, top.inFrom, top.expectRelation, lists) && At(atoms, i, PrintCore(c)) && Calm(top)
    requires !IsQualifiedPart(atoms, i) && NoDot(atoms, i + |PrintCore(c)|) && !top.queryStarted
    ensures Calm(last) && last.inFrom == CoreEnd(c, top.inFrom, top.expectRelation)
    ensures Runs(atoms, registry, Stacked(i, below, top, marks),
                 Stacked(i + |PrintCore(c)|, below, last,
                         marks + Taken(CoreSlots(c, i, top.inFrom, top.expectRelation), registry)))
    decreases c, 2
  {
    hide Runs, KeywordOf, Role, ScopeAfterWord, IsDistinctFrom, IsQualifiedPart, NoDot, At, IsExternalName,
      ThreePart, WfRelations, PrintRelations, RelationsSlots, Taken, RelationsEnd, Starts;
    var PivotCore(pivot, relations) := c;
    var x := PrintRelations(relations);
    AtOne(atoms, i, pivot, x);
    OpeningRelations(relations, true, true, lists);
    FirstNoDot(atoms, i + 1, x);
    NotExternal(atoms, i);
    WordRuns(atoms, registry, i, below, top, marks);
    PivotScope(top, pivot.value, false, IsDistinctFrom(atoms, i));
    var t1 := top.(inFrom := true, expectRelation := true, queryStarted := true, allowBareFrom := false);
    last := RelationsRuns(atoms, registry, relations, true, lists, i + 1, below, t1, marks);
    RunsTrans(atoms, registry, Stacked(i, below, top, marks), Stacked(i + 1, below, t1, marks),
              Stacked(i + 1 + |x|, below, last, marks + Taken(RelationsSlots(relations, i + 1, true, true, true), registry)));
  }

  /** A SELECT behind a dot is not seen. */
  lemma SelectScope(top: Scope, word: string, qualified: bool, distinctFrom: bool)
    requires KeywordOf(word) == Select && Calm(top)
    ensures ScopeAfterWord(top, word, qualified, distinctFrom) ==
            if qualified then Set(top, false)
            else top.(queryStarted := true, allowBareFrom := false, inFrom := false, expectRelation := false)
  {
    hide KeywordOf, Role;
  }

  /** SELECT and its list. */
  lemma PickRuns(atoms: seq<Atom>, registry: map<string, string>, select: Atom, items: Expr, dotted: bool, lists: bool,
                 i: nat, below: seq<Scope>, top: Scope, marks: seq<Mark>) returns (last: Scope)
    requires i < |atoms| && Before(select, Select, PrintExpr(items)) && Calm(top) && IsQualifiedPart(atoms, i) == dotted
    requires (dotted ==> top.inFrom) && WfExpr(items, ListSpot(dotted), dotted, false, lists)
    requires At(atoms, i, [select] + PrintExpr(items)) && NoDot(atoms, i + 1 + |PrintExpr(items)|)
    ensures Calm(last) && last.inFrom == dotted && (!dotted ==> last.queryStarted)
    ensures Runs(atoms, registry, Stacked(i, below, top, marks),
                 Stacked(i + 1 + |PrintExpr(items)|, below, last,
                         marks + Taken(ExprSlots(items, i + 1, dotted, false), registry)))
    decreases items, 3
  {
    hide Runs, KeywordOf, Role, ScopeAfterWord, IsExternalName, ThreePart, Taken, WfExpr, PrintExpr, ExprSlots, At,
      ExprDue, IsQualifiedPart, IsDistinctFrom;
    AtOne(atoms, i, select, PrintExpr(items));
    WordAlone(atoms, i, select, PrintExpr(items));
    WordRuns(atoms, registry, i, below, top, marks);
    SelectScope(top, select.value, dotted, IsDistinctFrom(atoms, i));
    var t1 := if dotted then Set(top, false)
              else top.(queryStarted := true, allowBareFrom := false, inFrom := false, expectRelation := false);
    ExprRuns(atoms, registry, items, ListSpot(dotted), lists, i + 1, below, t1, marks);
    last := Set(t1, ExprDue(items, dotted, false));
    StillSane(t1, items);
    RunsTrans(atoms, registry, Stacked(i, below, top, marks), Stacked(i + 1, below, t1, marks),
              Stacked(i + 1 + |PrintExpr(items)|, below, last,
                      marks + Taken(ExprSlots(items, i + 1, dotted, false), registry)));
  }

  /** A keyword before an expression begins no three-part name. */
  lemma WordAlone(atoms: seq<Atom>, i: nat, word: Atom, xs: seq<Atom>)
    requires i < |atoms| && atoms[i] == word && At(atoms, i + 1, xs) && (Starts(xs, '.') ==> !word.glued)
    requires NoDot(atoms, i + 1 + |xs|)
    ensures !IsExternalName(atoms, i)
  {
    if !Starts(xs, '.') {
      FirstNoDot(atoms, i + 1, xs);
    }
    NotExternal(atoms, i);
  }

  lemma SelectRuns(atoms: seq<Atom>, registry: map<string, string>, c: Core, lists: bool, i: nat,
                   below: seq<Scope>, top: Scope, marks: seq<Mark>) returns (last: Scope)
    requires c.SelectCore? && WfCore(c, top.inFrom, top.expectRelation, lists) && At(atoms, i, PrintCore(c)) && Calm(top)
    requires !IsQualifiedPart(atoms, i) && NoDot(atoms, i + |PrintCore(c)|)
    ensures Calm(last) && last.inFrom == CoreEnd(c, top.inFrom, top.expectRelation)
    ensures Runs(atoms, registry, Stacked(i, below, top, marks),
                 Stacked(i + |PrintCore(c)|, below, last,
                         marks + Taken(CoreSlots(c, i, top.inFrom, top.expectRelation), registry)))
    decreases c, 2
  {
    hide Runs, KeywordOf, Role, WfExpr, PrintExpr, PrintFrom, ExprSlots, FromSlots, ScopeAfterWord, IsDistinctFrom,
      IsQualifiedPart, NoDot, At, IsExternalName, ThreePart, EndsTest, WfFrom, Taken, FromEnd, EndsPoint, Before;
    var SelectCore(select, items, clause) := c;
    var x, y := PrintExpr(items), PrintFrom(clause);
    var j := i + 1 + |x|;
    var seen := !EndsPoint(x);
    SelectSegments(atoms, c, i, lists);
    var t1 := PickRuns(atoms, registry, select, items, false, lists, i, below, top, marks);
    var m1 := marks + Taken(ExprSlots(items, i + 1, false, false), registry);
    last := FromRuns(atoms, registry, clause, seen, lists, j, below, t1, m1);
    TakenTwo(marks, ExprSlots(items, i + 1, false, false), FromSlots(clause, j, false, seen), registry);
    RunsTrans(atoms, registry, Stacked(i, below, top, marks), Stacked(j, below, t1, m1),
              Stacked(j + |y|, below, last, m1 + Taken(FromSlots(clause, j, false, seen), registry)));
  }

  /** The tokens around a select list. */
  lemma SelectSegments(atoms: seq<Atom>, c: Core, i: nat, lists: bool)
    requires c.SelectCore? && WfCore(c, false, false, lists) && At(atoms, i, PrintCore(c)) && NoDot(atoms, i + |PrintCore(c)|)
    ensures var x, y := PrintExpr(c.items), PrintFrom(c.clause); var j := i + 1 + |x|;
      && i < |atoms| && At(atoms, i, [c.select] + x) && At(atoms, j, y) && NoDot(atoms, j)
      && IsQualifiedPart(atoms, j) == EndsPoint(x) && (j < |atoms| ==> !IsDistinctFrom(atoms, j))
      && |PrintCore(c)| == 1 + |x| + |y|
  {
    hide KeywordOf, Role, WfExpr, PrintExpr, PrintFrom, WfFrom, IsDistinctFrom, IsQualifiedPart, At, EndsPoint, NoDot;
    var x, y := PrintExpr(c.items), PrintFrom(c.clause);
    AtThree(atoms, i, [c.select], x, y);
    AtOne(atoms, i, c.select, x);
    KeywordIsNoDot(c.select, Select);
    QualifiedBehind(atoms, i, x);
    NotAfterDistinct(atoms, i, x);
    OpeningFrom(c.clause, false, !EndsPoint(x), lists);
    FirstNoDot(atoms, i + 1 + |x|, y);
  }

  lemma OpeningFrom(f: FromClause, inFrom: bool, seen: bool, lists: bool)
    requires WfFrom(f, inFrom, seen, lists)
    ensures !Starts(PrintFrom(f), '.')
  {
    hide KeywordOf, Role, PrintRelations, WfRelations;
  }

  /** A FROM belongs to a comparison exactly when IS DISTINCT or IS NOT DISTINCT stands before it. */
  lemma TestBefore(atoms: seq<Atom>, i: nat)
    requires i < |atoms| && IsKeyword(atoms[i], From)
    ensures IsDistinctFrom(atoms, i) <==> EndsTest(atoms[..i])
  {
    hide KeywordOf, Role;
  }

  /** What stands between a SELECT, a set operator or a parenthesis and a FROM decides whether it is a comparison's. */
  lemma NotAfterDistinct(atoms: seq<Atom>, i: nat, xs: seq<Atom>)
    requires i < |atoms|
    requires IsKeyword(atoms[i], Select) || IsKeyword(atoms[i], SetOperator) || IsSymbol(atoms[i], '(')
    requires At(atoms, i + 1, xs) && !EndsTest(xs)
    ensures var j := i + 1 + |xs|; j < |atoms| ==> !IsDistinctFrom(atoms, j)
  {
    hide KeywordOf, Role;
    var j, n := i + 1 + |xs|, |xs|;
    if n >= 1 {
      assert atoms[i + 1 + (n - 1)] == xs[n - 1];
      assert atoms[j - 1] == xs[n - 1];
    }
    if n >= 2 {
      assert atoms[i + 1 + (n - 2)] == xs[n - 2];
      assert atoms[j - 2] == xs[n - 2];
    }
    if n >= 3 {
      assert atoms[i + 1 + (n - 3)] == xs[n - 3];
      assert atoms[j - 3] == xs[n - 3];
    }
  }

  lemma {:induction false} MoreEndTrue(m: More, dotted: bool)
    ensures MoreEnd(m, true, dotted)
  {
    match m
    case Done =>
    case Comma(_, relations) => MoreEndTrue(relations.more, EndsPoint(PrintRelation(relations.relation)));
    case Joined(_, relation, more) => MoreEndTrue(more, EndsPoint(PrintRelation(relation)));
  }

  /** A query that begins with FROM, with or without a SELECT behind it. */
  lemma FromCoreRuns(atoms: seq<Atom>, registry: map<string, string>, c: Core, lists: bool, i: nat,
                     below: seq<Scope>, top: Scope, marks: seq<Mark>) returns (last: Scope)
    requires c.FromCore? && WfCore(c, top.inFrom, top.expectRelation, lists) && At(atoms, i, PrintCore(c)) && Calm(top)
    requires !IsQualifiedPart(atoms, i) && i < |atoms| && !IsDistinctFrom(atoms, i) && NoDot(atoms, i + |PrintCore(c)|)
    requires top.allowBareFrom || top.queryStarted
    ensures Calm(last) && last.inFrom == CoreEnd(c, top.inFrom, top.expectRelation)
    ensures Runs(atoms, registry, Stacked(i, below, top, marks),
                 Stacked(i + |PrintCore(c)|, below, last,
                         marks + Taken(CoreSlots(c, i, top.inFrom, top.expectRelation), registry)))
    decreases c, 2
  {
    hide Runs, KeywordOf, Role, WfExpr, PrintExpr, PrintFrom, ExprSlots, FromSlots, ScopeAfterWord, IsDistinctFrom,
      IsQualifiedPart, NoDot, At, IsExternalName, ThreePart, WfFrom, Taken, EndsPoint, Before, RelationsEnd;
    var FromCore(clause, picked) := c;
    var x, y := PrintFrom(clause), PrintPicked(picked);
    var j := i + |x|;
    var dotted := EndsPoint(x);
    MoreEndTrue(clause.relations.more, EndsPoint(PrintRelation(clause.relations.relation)));
    assert FromEnd(clause, top.inFrom, true) by { RelationsEndIs(clause.relations); }
    AtSplit(atoms, i, x, y);
    QualifiedAfter(atoms, i, x);
    FromNotEmpty(clause);
    PickedNoDot(picked, lists);
    FirstNoDot(atoms, j, y);
    var t1 := FromRuns(atoms, registry, clause, true, lists, i, below, top, marks);
    var m1 := marks + Taken(FromSlots(clause, i, top.inFrom, true), registry);
    if picked.NoPick? {
      last := t1;
      TakenTwo(marks, FromSlots(clause, i, top.inFrom, true), [], registry);
      TakenNone(m1, registry);
    } else {
      AtLength(atoms, j, y);
      last := PickRuns(atoms, registry, picked.select, picked.items, dotted, lists, j, below, t1, m1);
      TakenTwo(marks, FromSlots(clause, i, top.inFrom, true), ExprSlots(picked.items, j + 1, dotted, false), registry);
      RunsTrans(atoms, registry, Stacked(i, below, top, marks), Stacked(j, below, t1, m1),
                Stacked(j + |y|, below, last, m1 + Taken(ExprSlots(picked.items, j + 1, dotted, false), registry)));
    }
  }

  lemma RelationsEndIs(r: Relations)
    ensures RelationsEnd(r, true)
  {
    MoreEndTrue(r.more, EndsPoint(PrintRelation(r.relation)));
  }

  lemma FromNotEmpty(f: FromClause)
    requires f.FromList?
    ensures PrintFrom(f) != []
  {
    hide PrintRelations;
  }

  lemma PickedNoDot(p: Picked, lists: bool)
    requires p.Pick? ==> Before(p.select, Select, PrintExpr(p.items))
    ensures !Starts(PrintPicked(p), '.')
  {
    hide KeywordOf, Role, PrintExpr;
  }

  /** A FROM behind a dot is not seen. */
  lemma FromScope(top: Scope, word: string, qualified: bool)
    requires KeywordOf(word) == From && (top.queryStarted || top.allowBareFrom) && !top.writeSourcePending
    ensures ScopeAfterWord(top, word, qualified, false) ==
      if qualified then Set(top, false) else top.(inFrom := true, expectRelation := true)
  {
    hide KeywordOf, Role;
  }

  lemma FromRuns(atoms: seq<Atom>, registry: map<string, string>, f: FromClause, seen: bool, lists: bool, i: nat,
                 below: seq<Scope>, top: Scope, marks: seq<Mark>) returns (last: Scope)
    requires WfFrom(f, top.inFrom, seen, lists) && At(atoms, i, PrintFrom(f)) && Calm(top)
    requires top.queryStarted || top.allowBareFrom
    requires f.FromList? ==> IsQualifiedPart(atoms, i) == !seen
    requires NoDot(atoms, i + |PrintFrom(f)|) && (i < |atoms| ==> !IsDistinctFrom(atoms, i))
    ensures Calm(last) && last.inFrom == FromEnd(f, top.inFrom, seen)
    ensures Runs(atoms, registry, Stacked(i, below, top, marks),
                 Stacked(i + |PrintFrom(f)|, below, last, marks + Taken(FromSlots(f, i, top.inFrom, seen), registry)))
    decreases f, 3
  {
    hide *;
    FromIs(f, top.inFrom, seen, lists, i);
    match f
    case NoFrom =>
      last := top;
      TakenNone(marks, registry);
      AtLength(atoms, i, []);
      StackedScopes(i, below, top, marks);
      RunsSame(atoms, registry, Stacked(i, below, top, marks));
    case FromList(from, relations) =>
      last := FromListRuns(atoms, registry, from, relations, seen, lists, i, below, top, marks);
  }

  lemma StackedScopes(i: nat, below: seq<Scope>, top: Scope, marks: seq<Mark>)
    ensures Stacked(i, below, top, marks).scopes != [] && Stacked(i, below, top, marks).index == i
  {
  }

  lemma FromIs(f: FromClause, inFrom: bool, seen: bool, lists: bool, i: nat)
    requires WfFrom(f, inFrom, seen, lists)
    ensures f.NoFrom? ==> PrintFrom(f) == [] && FromSlots(f, i, inFrom, seen) == [] && FromEnd(f, inFrom, seen) == inFrom
    ensures f.FromList? ==>
      && PrintFrom(f) == [f.from] + PrintRelations(f.relations) && |PrintFrom(f)| == 1 + |PrintRelations(f.relations)|
      && IsKeyword(f.from, From) && WfRelations(f.relations, inFrom || seen, seen, lists)
      && FromSlots(f, i, inFrom, seen) == RelationsSlots(f.relations, i + 1, inFrom || seen, seen, true)
      && FromEnd(f, inFrom, seen) == RelationsEnd(f.relations, inFrom || seen)
  {
    hide KeywordOf, Role, PrintRelations, WfRelations, RelationsSlots, RelationsEnd;
  }

  lemma FromListRuns(atoms: seq<Atom>, registry: map<string, string>, from: Atom, relations: Relations, seen: bool,
                     lists: bool, i: nat, below: seq<Scope>, top: Scope, marks: seq<Mark>) returns (last: Scope)
    requires IsKeyword(from, From) && WfRelations(relations, top.inFrom || seen, seen, lists)
    requires At(atoms, i, [from] + PrintRelations(relations)) && Calm(top) && (top.queryStarted || top.allowBareFrom)
    requires IsQualifiedPart(atoms, i) == !seen
    requires NoDot(atoms, i + 1 + |PrintRelations(relations)|) && (i < |atoms| ==> !IsDistinctFrom(atoms, i))
    ensures Calm(last) && last.inFrom == RelationsEnd(relations, top.inFrom || seen)
    ensures Runs(atoms, registry, Stacked(i, below, top, marks),
                 Stacked(i + 1 + |PrintRelations(relations)|, below, last,
                         marks + Taken(RelationsSlots(relations, i + 1, top.inFrom || seen, seen, true), registry)))
    decreases relations, 4
  {
    hide Runs, KeywordOf, Role, ScopeAfterWord, IsDistinctFrom, IsQualifiedPart, NoDot, At, IsExternalName,
      ThreePart, WfRelations, PrintRelations, RelationsSlots, Taken, RelationsEnd, Starts;
    var x := PrintRelations(relations);
    AtOne(atoms, i, from, x);
    OpeningRelations(relations, top.inFrom || seen, seen, lists);
    WordAlone(atoms, i, from, x);
    WordRuns(atoms, registry, i, below, top, marks);
    FromScope(top, from.value, !seen);
    var t1 := if seen then top.(inFrom := true, expectRelation := true) else Set(top, false);
    assert t1.inFrom == (top.inFrom || seen) && t1.expectRelation == seen && Calm(t1);
    last := RelationsRuns(atoms, registry, relations, true, lists, i + 1, below, t1, marks);
    RunsTrans(atoms, registry, Stacked(i, below, top, marks), Stacked(i + 1, below, t1, marks),
              Stacked(i + 1 + |x|, below, last,
                      marks + Taken(RelationsSlots(relations, i + 1, t1.inFrom, seen, true), registry)));
  }

  /** A clause word behind a dot is not seen. */
  lemma ClauseEndScope(top: Scope, word: string, qualified: bool, distinctFrom: bool)
    requires KeywordOf(word) == ClauseEnd && !top.writeSourcePending
    ensures ScopeAfterWord(top, word, qualified, distinctFrom) ==
      if qualified then Set(top, false) else top.(inFrom := false, expectRelation := false, allowBareFrom := false)
  {
    hide KeywordOf, Role;
  }

  lemma TailsRuns(atoms: seq<Atom>, registry: map<string, string>, t: Tails, dotted: bool, lists: bool, i: nat,
                  below: seq<Scope>, top: Scope, marks: seq<Mark>) returns (last: Scope)
    requires WfTails(t, top.inFrom, dotted, lists) && At(atoms, i, PrintTails(t)) && Calm(top)
    requires IsQualifiedPart(atoms, i) == dotted && NoDot(atoms, i + |PrintTails(t)|)
    ensures Calm(last) && last.inFrom == TailsEnd(t, top.inFrom, dotted)
    ensures Runs(atoms, registry, Stacked(i, below, top, marks),
                 Stacked(i + |PrintTails(t)|, below, last,
                         marks + Taken(TailsSlots(t, i, top.inFrom, dotted), registry)))
    decreases t, 1
  {
    hide Runs, KeywordOf, Role, ScopeAfterWord, IsDistinctFrom, IsQualifiedPart, At, IsExternalName, ThreePart,
      WfExpr, PrintExpr, ExprSlots, Taken, NoDot, EndsPoint, ExprDue;
    match t
    case NoTail =>
      last := top;
      TakenNone(marks, registry);
      RunsSame(atoms, registry, Stacked(i, below, top, marks)) by {
        AtLength(atoms, i, []);
      }
    case Tail(keyword, body, more) =>
      var x, z := PrintExpr(body), PrintTails(more);
      var k := i + 1 + |x|;
      var kept, next := top.inFrom && dotted, EndsPoint([keyword] + x);
      AtThree(atoms, i, [keyword], x, z);
      AtOne(atoms, i, keyword, x);
      QualifiedAfter(atoms, i, [keyword] + x);
      OpeningTails(more, kept, next, lists);
      FirstNoDot(atoms, k, z);
      WordAlone(atoms, i, keyword, x);
      WordRuns(atoms, registry, i, below, top, marks);
      ClauseEndScope(top, keyword.value, dotted, IsDistinctFrom(atoms, i));
      var t1 := if dotted then Set(top, false)
                else top.(inFrom := false, expectRelation := false, allowBareFrom := false);
      ExprRuns(atoms, registry, body, ListSpot(dotted), lists, i + 1, below, t1, marks);
      var t2 := Set(t1, ExprDue(body, kept, false));
      StillSane(t1, body);
      var m1 := marks + Taken(ExprSlots(body, i + 1, kept, false), registry);
      last := TailsRuns(atoms, registry, more, next, lists, k, below, t2, m1);
      TakenTwo(marks, ExprSlots(body, i + 1, kept, false), TailsSlots(more, k, kept, next), registry);
      RunsFour(atoms, registry, Stacked(i, below, top, marks), Stacked(i + 1, below, t1, marks), Stacked(k, below, t2, m1),
               Stacked(k + |z|, below, last, m1 + Taken(TailsSlots(more, k, kept, next), registry)));
  }

  // ---------------------------------------------------------------- FROM lists

  lemma RelationsRuns(atoms: seq<Atom>, registry: map<string, string>, r: Relations, meant: bool, lists: bool, i: nat,
                      below: seq<Scope>, top: Scope, marks: seq<Mark>) returns (last: Scope)
    requires WfRelations(r, top.inFrom, top.expectRelation, lists) && At(atoms, i, PrintRelations(r)) && Calm(top)
    requires NoDot(atoms, i + |PrintRelations(r)|)
    ensures Calm(last) && last.inFrom == RelationsEnd(r, top.inFrom)
    ensures Runs(atoms, registry, Stacked(i, below, top, marks),
                 Stacked(i + |PrintRelations(r)|, below, last,
                         marks + Taken(RelationsSlots(r, i, top.inFrom, top.expectRelation, meant), registry)))
    decreases r, 3
  {
    hide Runs, IsQualifiedPart, NoDot, At, PrintRelation, PrintMore, RelationSlots, MoreSlots, WfRelation, WfMore,
      EndsPoint, Taken, MoreEnd, ExprDue;
    var x, y := PrintRelation(r.relation), PrintMore(r.more);
    var j := i + |x|;
    var dotted := EndsPoint(x);
    AtSplit(atoms, i, x, y);
    OpeningRelation(r.relation, top.inFrom, top.expectRelation, lists);
    OpeningMore(r.more, top.inFrom, dotted, lists);
    FirstNoDot(atoms, j, y);
    QualifiedAfter(atoms, i, x);
    var t1 := RelationRuns(atoms, registry, r.relation, meant, lists, i, below, top, marks);
    var m1 := marks + Taken(RelationSlots(r.relation, i, top.inFrom, top.expectRelation, meant), registry);
    last := MoreRuns(atoms, registry, r.more, dotted, meant, lists, j, below, t1, m1);
    TakenTwo(marks, RelationSlots(r.relation, i, top.inFrom, top.expectRelation, meant),
             MoreSlots(r.more, j, top.inFrom, dotted, meant), registry);
    RunsTrans(atoms, registry, Stacked(i, below, top, marks), Stacked(j, below, t1, m1),
              Stacked(j + |y|, below, last, m1 + Taken(MoreSlots(r.more, j, top.inFrom, dotted, meant), registry)));
  }

  /** A JOIN behind a dot is not seen. */
  lemma JoinScope(top: Scope, word: string, qualified: bool, distinctFrom: bool)
    requires KeywordOf(word) == Join && !top.writeSourcePending
    ensures ScopeAfterWord(top, word, qualified, distinctFrom) ==
      if qualified then Set(top, false) else top.(inFrom := true, expectRelation := true)
  {
    hide KeywordOf, Role;
  }

  lemma MoreRuns(atoms: seq<Atom>, registry: map<string, string>, m: More, dotted: bool, meant: bool, lists: bool,
                 i: nat, below: seq<Scope>, top: Scope, marks: seq<Mark>) returns (last: Scope)
    requires WfMore(m, top.inFrom, dotted, lists) && At(atoms, i, PrintMore(m)) && Calm(top)
    requires (m.Joined? ==> IsQualifiedPart(atoms, i) == dotted) && NoDot(atoms, i + |PrintMore(m)|)
    ensures Calm(last) && last.inFrom == MoreEnd(m, top.inFrom, dotted)
    ensures Runs(atoms, registry, Stacked(i, below, top, marks),
                 Stacked(i + |PrintMore(m)|, below, last,
                         marks + Taken(MoreSlots(m, i, top.inFrom, dotted, meant), registry)))
    decreases m, 3
  {
    hide Runs, IsQualifiedPart, NoDot, At, PrintRelations, RelationsSlots, WfRelations, Taken, RelationsEnd,
      PrintRelation, RelationSlots, WfRelation, EndsPoint;
    match m
    case Done =>
      last := top;
      TakenNone(marks, registry);
      RunsSame(atoms, registry, Stacked(i, below, top, marks)) by {
        AtLength(atoms, i, []);
      }
    case Comma(comma, relations) =>
      AtOne(atoms, i, comma, PrintRelations(relations));
      CommaRuns(atoms, registry, i, below, top, marks);
      var t1 := Set(top, top.inFrom);
      assert top.inFrom || top.expectRelation == top.inFrom;
      last := RelationsRuns(atoms, registry, relations, meant, lists, i + 1, below, t1, marks);
      RunsTrans(atoms, registry, Stacked(i, below, top, marks), Stacked(i + 1, below, t1, marks),
                Stacked(i + 1 + |PrintRelations(relations)|, below, last,
                        marks + Taken(RelationsSlots(relations, i + 1, top.inFrom, top.inFrom, meant), registry)));
    case Joined(_, _, _) =>
      last := JoinRuns(atoms, registry, m, dotted, meant, lists, i, below, top, marks);
  }

  lemma JoinRuns(atoms: seq<Atom>, registry: map<string, string>, m: More, dotted: bool, meant: bool, lists: bool,
                 i: nat, below: seq<Scope>, top: Scope, marks: seq<Mark>) returns (last: Scope)
    requires m.Joined? && WfMore(m, top.inFrom, dotted, lists) && At(atoms, i, PrintMore(m)) && Calm(top)
    requires IsQualifiedPart(atoms, i) == dotted && NoDot(atoms, i + |PrintMore(m)|)
    ensures Calm(last) && last.inFrom == MoreEnd(m, top.inFrom, dotted)
    ensures Runs(atoms, registry, Stacked(i, below, top, marks),
                 Stacked(i + |PrintMore(m)|, below, last,
                         marks + Taken(MoreSlots(m, i, top.inFrom, dotted, meant), registry)))
    decreases m, 2
  {
    hide Runs, KeywordOf, Role, ScopeAfterWord, IsDistinctFrom, IsQualifiedPart, NoDot, At, IsExternalName,
      ThreePart, Taken, PrintRelation, RelationSlots, WfRelation, EndsPoint;
    var Joined(join, relation, more) := m;
    var x, z := PrintRelation(relation), PrintMore(more);
    var k := i + 1 + |x|;
    var still, next := top.inFrom || !dotted, EndsPoint(x);
    AtThree(atoms, i, [join], x, z);
    AtOne(atoms, i, join, x);
    OpeningRelation(relation, still, !dotted, lists);
    OpeningMore(more, still, next, lists);
    FirstNoDot(atoms, k, z);
    QualifiedAfter(atoms, i + 1, x);
    WordAlone(atoms, i, join, x);
    var t1 := if dotted then Set(top, false) else top.(inFrom := true, expectRelation := true);
    WordRuns(atoms, registry, i, below, top, marks);
    JoinScope(top, join.value, dotted, IsDistinctFrom(atoms, i));
    var t2 := RelationRuns(atoms, registry, relation, meant, lists, i + 1, below, t1, marks);
    var m1 := marks + Taken(RelationSlots(relation, i + 1, still, !dotted, meant), registry);
    last := MoreRuns(atoms, registry, more, next, meant, lists, k, below, t2, m1);
    TakenTwo(marks, RelationSlots(relation, i + 1, still, !dotted, meant), MoreSlots(more, k, still, next, meant), registry);
    RunsFour(atoms, registry, Stacked(i, below, top, marks), Stacked(i + 1, below, t1, marks), Stacked(k, below, t2, m1),
             Stacked(k + |z|, below, last, m1 + Taken(MoreSlots(more, k, still, next, meant), registry)));
  }

  lemma RelationRuns(atoms: seq<Atom>, registry: map<string, string>, r: Relation, meant: bool, lists: bool, i: nat,
                     below: seq<Scope>, top: Scope, marks: seq<Mark>) returns (last: Scope)
    requires WfRelation(r, top.inFrom, top.expectRelation, lists) && At(atoms, i, PrintRelation(r)) && Calm(top)
    requires NoDot(atoms, i + |PrintRelation(r)|)
    ensures Calm(last) && last.inFrom == top.inFrom
    ensures Runs(atoms, registry, Stacked(i, below, top, marks),
                 Stacked(i + |PrintRelation(r)|, below, last,
                         marks + Taken(RelationSlots(r, i, top.inFrom, top.expectRelation, meant), registry)))
    decreases r, 3
  {
    hide Runs, NoDot, At, PrintExpr, ExprSlots, WfExpr, ModifiersOk, PrintBody, BodySlots, WfBody, Taken, Starts,
      ExprDue;
    var t1 := Set(top, false);
    var x, y := PrintBody(r), PrintExpr(r.trail);
    var f := i + |r.modifiers|;
    var g := f + |x|;
    AtThree(atoms, i, r.modifiers, x, y);
    FirstNoDot(atoms, g, y);
    OpeningBody(r, top.expectRelation, lists);
    FirstNoDot(atoms, f, x);
    ModifiersRuns(atoms, registry, r.modifiers, i, below, top, marks);
    var m1 := marks + Taken(BodySlots(r, f, top.expectRelation, meant), registry);
    BodyRuns(atoms, registry, r, meant, lists, f, below, top, marks);
    ExprRuns(atoms, registry, r.trail, QUIET, lists, g, below, t1, m1);
    last := Set(t1, ExprDue(r.trail, top.inFrom, false));
    StillSane(t1, r.trail);
    var m2 := m1 + Taken(ExprSlots(r.trail, g, top.inFrom, false), registry);
    TakenTwo(marks, BodySlots(r, f, top.expectRelation, meant), ExprSlots(r.trail, g, top.inFrom, false), registry);
    RunsFour(atoms, registry, Stacked(i, below, top, marks), Stacked(f, below, top, marks), Stacked(g, below, t1, m1),
             Stacked(g + |y|, below, last, m2));
  }

  lemma ModifierScope(top: Scope, word: string, qualified: bool, distinctFrom: bool)
    requires KeywordOf(word) == Modifier
    ensures ScopeAfterWord(top, word, qualified, distinctFrom) == top
  {
    hide KeywordOf, Role;
  }

  lemma {:induction false} ModifiersRuns(atoms: seq<Atom>, registry: map<string, string>, modifiers: seq<Atom>, i: nat,
                                         below: seq<Scope>, top: Scope, marks: seq<Mark>)
    requires ModifiersOk(modifiers) && At(atoms, i, modifiers) && NoDot(atoms, i + |modifiers|)
    ensures Runs(atoms, registry, Stacked(i, below, top, marks), Stacked(i + |modifiers|, below, top, marks))
    decreases |modifiers|
  {
    hide Runs, KeywordOf, Role, ScopeAfterWord, IsDistinctFrom, IsQualifiedPart, IsExternalName, ThreePart;
    if modifiers == [] {
      RunsSame(atoms, registry, Stacked(i, below, top, marks));
    } else {
      var rest := modifiers[1..];
      assert modifiers == [modifiers[0]] + rest;
      AtOne(atoms, i, modifiers[0], rest);
      assert modifiers[0] in modifiers && forall m | m in rest :: m in modifiers;
      if rest != [] {
        assert atoms[i + 1 + 0] == rest[0] && rest[0] in rest;
      }
      NotExternal(atoms, i);
      WordRuns(atoms, registry, i, below, top, marks);
      ModifierScope(top, modifiers[0].value, IsQualifiedPart(atoms, i), IsDistinctFrom(atoms, i));
      ModifiersRuns(atoms, registry, rest, i + 1, below, top, marks);
      RunsTrans(atoms, registry, Stacked(i, below, top, marks), Stacked(i + 1, below, top, marks),
                Stacked(i + |modifiers|, below, top, marks));
    }
  }

  lemma BodyRuns(atoms: seq<Atom>, registry: map<string, string>, r: Relation, meant: bool, lists: bool, i: nat,
                 below: seq<Scope>, top: Scope, marks: seq<Mark>)
    requires WfBody(r, top.expectRelation, lists) && At(atoms, i, PrintBody(r)) && Calm(top)
    requires NoDot(atoms, i + |PrintBody(r)|)
    ensures Runs(atoms, registry, Stacked(i, below, top, marks),
                 Stacked(i + |PrintBody(r)|, below, Set(top, false),
                         marks + Taken(BodySlots(r, i, top.expectRelation, meant), registry)))
    decreases r, 2
  {
    hide Runs, KeywordOf, Role, IsExternalName, ThreePart, PrintQuery, WfQuery, QuerySlots, PrintRelations,
      WfRelations, RelationsSlots, PrintParts, PartsOk, Taken, NameSlots, At, NoDot, IsHead, IsTableName,
      StartsFromQuery;
    match r
    case Named(_, head, parts, _) =>
      DottedRuns(atoms, registry, head, parts, meant && IsTableName(r), i, below, top, marks);
    case Derived(_, open, query, close, _) =>
      EnclosedQueryRuns(atoms, registry, open, query, close, lists, i, below, top, marks);
    case Nested(_, open, relations, close, _) =>
      NestedRuns(atoms, registry, open, relations, close, meant, lists, i, below, top, marks);
  }

  lemma NestedRuns(atoms: seq<Atom>, registry: map<string, string>, open: Atom, relations: Relations, close: Atom,
                   meant: bool, lists: bool, i: nat, below: seq<Scope>, top: Scope, marks: seq<Mark>)
    requires IsSymbol(open, '(') && IsSymbol(close, ')')
    requires WfRelations(relations, top.expectRelation, top.expectRelation, lists)
    requires At(atoms, i, Enclosed(open, PrintRelations(relations), close)) && Calm(top)
    ensures Runs(atoms, registry, Stacked(i, below, top, marks),
                 Stacked(i + |PrintRelations(relations)| + 2, below, Set(top, false),
                         marks + Taken(RelationsSlots(relations, i + 1, top.expectRelation, top.expectRelation, meant),
                                       registry)))
    decreases relations, 4
  {
    hide Runs, KeywordOf, Role, WfRelations, At, Taken, RelationsEnd, NoDot, PrintRelations, RelationsSlots;
    var inside := PrintRelations(relations);
    AtEnclosed(atoms, i, open, inside, close);
    CloseIsNoDot(atoms, i + 1 + |inside|);
    var last := RelationsRuns(atoms, registry, relations, meant, lists, i + 1, below + [Set(top, false)],
                              Inner(atoms, i, top), marks);
    EnclosedRuns(atoms, registry, i, |inside|, below, top, last, marks,
                 marks + Taken(RelationsSlots(relations, i + 1, top.expectRelation, top.expectRelation, meant), registry));
  }

  // ---------------------------------------------------------------- slots stand in order

  /** The slots stand in `[lo, hi)`, in increasing order. */
  ghost predicate Ranged(slots: seq<Slot>, lo: nat, hi: nat) {
    && (forall k | 0 <= k < |slots| :: lo <= slots[k].first < hi)
    && (forall j, k | 0 <= j < k < |slots| :: slots[j].first < slots[k].first)
  }

  lemma RangedTwo(a: seq<Slot>, b: seq<Slot>, lo: nat, from: nat, mid: nat, to: nat, hi: nat)
    requires Ranged(a, from, mid) && Ranged(b, mid, to) && lo <= from <= mid <= to <= hi
    ensures Ranged(a + b, lo, hi)
  {
  }

  lemma RangedIn(slots: seq<Slot>, lo: nat, from: nat, to: nat, hi: nat)
    requires Ranged(slots, from, to) && lo <= from && to <= hi
    ensures Ranged(slots, lo, hi)
  {
  }

  lemma NameRanged(xs: seq<Atom>, at: nat, code: bool, meant: bool)
    ensures Ranged(NameSlots(xs, at, code, meant), at, at + |xs|)
  {
  }

  lemma {:induction false} ItemRanged(item: Item, at: nat, inFrom: bool, due: bool)
    ensures Ranged(ItemSlots(item, at, inFrom, due), at, at + |PrintItem(item)|)
  {
    hide Ranged, ExprSlots, QuerySlots, PrintExpr, PrintQuery, PrintParts, NameSlots;
    var end := at + |PrintItem(item)|;
    match item
    case Column(_, _) => NameRanged(PrintItem(item), at, due, false);
    case Group(_, body, _, _) =>
      ExprRanged(body, at + 1, due, due);
      RangedIn(ExprSlots(body, at + 1, due, due), at, at + 1, at + 1 + |PrintExpr(body)|, end);
    case Bracket(_, body, _, _) =>
      ExprRanged(body, at + 1, inFrom, due);
      RangedIn(ExprSlots(body, at + 1, inFrom, due), at, at + 1, at + 1 + |PrintExpr(body)|, end);
    case TrimFrom(_, _, _, body, _) =>
      ExprRanged(body, at + 3, true, true);
      RangedIn(ExprSlots(body, at + 3, true, true), at, at + 3, at + 3 + |PrintExpr(body)|, end);
    case Subquery(_, query, _, _) =>
      QueryRanged(query, at + 1, due, due);
      RangedIn(QuerySlots(query, at + 1, due, due), at, at + 1, at + 1 + |PrintQuery(query)|, end);
    case _ =>
      NoneRanged(at, end);
  }

  lemma NoneRanged(lo: nat, hi: nat)
    ensures Ranged([], lo, hi)
  {
  }

  lemma {:induction false} ExprRanged(e: Expr, at: nat, inFrom: bool, due: bool)
    ensures Ranged(ExprSlots(e, at, inFrom, due), at, at + |PrintExpr(e)|)
  {
    hide Ranged, ItemSlots, PrintItem, ItemDue;
    match e
    case Nil => NoneRanged(at, at);
    case Cons(item, rest) =>
      var mid, next := at + |PrintItem(item)|, ItemDue(item, inFrom, due);
      var end := at + |PrintExpr(e)|;
      ItemRanged(item, at, inFrom, due);
      ExprRanged(rest, mid, inFrom, next);
      RangedTwo(ItemSlots(item, at, inFrom, due), ExprSlots(rest, mid, inFrom, next), at, at, mid, end, end);
  }

  lemma {:induction false} BodyRanged(r: Relation, at: nat, code: bool, meant: bool)
    ensures Ranged(BodySlots(r, at, code, meant), at, at + |PrintBody(r)|)
    decreases r, 0
  {
    hide Ranged, QuerySlots, PrintQuery, RelationsSlots, PrintRelations, PrintParts, NameSlots, IsTableName;
    var end := at + |PrintBody(r)|;
    match r
    case Named(_, _, _, _) => NameRanged(PrintBody(r), at, code, meant && IsTableName(r));
    case Derived(_, _, query, _, _) =>
      QueryRanged(query, at + 1, code, code);
      RangedIn(QuerySlots(query, at + 1, code, code), at, at + 1, at + 1 + |PrintQuery(query)|, end);
    case Nested(_, _, relations, _, _) =>
      RelationsRanged(relations, at + 1, code, code, meant);
      RangedIn(RelationsSlots(relations, at + 1, code, code, meant), at, at + 1, at + 1 + |PrintRelations(relations)|, end);
  }

  lemma {:induction false} RelationRanged(r: Relation, at: nat, inFrom: bool, code: bool, meant: bool)
    ensures Ranged(RelationSlots(r, at, inFrom, code, meant), at, at + |PrintRelation(r)|)
    decreases r, 1
  {
    hide Ranged, BodySlots, ExprSlots, PrintBody, PrintExpr;
    var first := at + |r.modifiers|;
    var mid := first + |PrintBody(r)|;
    var end := at + |PrintRelation(r)|;
    BodyRanged(r, first, code, meant);
    ExprRanged(r.trail, mid, inFrom, false);
    RangedTwo(BodySlots(r, first, code, meant), ExprSlots(r.trail, mid, inFrom, false), at, first, mid, end, end);
  }

  lemma {:induction false} RelationsRanged(r: Relations, at: nat, inFrom: bool, code: bool, meant: bool)
    ensures Ranged(RelationsSlots(r, at, inFrom, code, meant), at, at + |PrintRelations(r)|)
  {
    hide Ranged, RelationSlots, MoreSlots, PrintRelation, PrintMore, EndsPoint;
    var dotted := EndsPoint(PrintRelation(r.relation));
    var mid := at + |PrintRelation(r.relation)|;
    var end := at + |PrintRelations(r)|;
    RelationRanged(r.relation, at, inFrom, code, meant);
    MoreRanged(r.more, mid, inFrom, dotted, meant);
    RangedTwo(RelationSlots(r.relation, at, inFrom, code, meant), MoreSlots(r.more, mid, inFrom, dotted, meant),
              at, at, mid, end, end);
  }

  lemma {:induction false} MoreRanged(m: More, at: nat, inFrom: bool, dotted: bool, meant: bool)
    ensures Ranged(MoreSlots(m, at, inFrom, dotted, meant), at, at + |PrintMore(m)|)
  {
    hide Ranged, RelationsSlots, PrintRelations, RelationSlots, PrintRelation, EndsPoint;
    var end := at + |PrintMore(m)|;
    match m
    case Done => NoneRanged(at, at);
    case Comma(_, relations) =>
      RelationsRanged(relations, at + 1, inFrom, inFrom, meant);
      RangedIn(RelationsSlots(relations, at + 1, inFrom, inFrom, meant), at, at + 1, end, end);
    case Joined(_, relation, more) =>
      var still, next := inFrom || !dotted, EndsPoint(PrintRelation(relation));
      var k := at + 1 + |PrintRelation(relation)|;
      RelationRanged(relation, at + 1, still, !dotted, meant);
      MoreRanged(more, k, still, next, meant);
      RangedTwo(RelationSlots(relation, at + 1, still, !dotted, meant), MoreSlots(more, k, still, next, meant),
                at, at + 1, k, end, end);
  }

  lemma {:induction false} FromRanged(f: FromClause, at: nat, inFrom: bool, seen: bool)
    ensures Ranged(FromSlots(f, at, inFrom, seen), at, at + |PrintFrom(f)|)
  {
    hide Ranged, RelationsSlots, PrintRelations;
    match f
    case NoFrom => NoneRanged(at, at);
    case FromList(_, relations) =>
      var end := at + |PrintFrom(f)|;
      RelationsRanged(relations, at + 1, inFrom || seen, seen, true);
      RangedIn(RelationsSlots(relations, at + 1, inFrom || seen, seen, true), at, at + 1, end, end);
  }

  lemma {:induction false} TailsRanged(t: Tails, at: nat, inFrom: bool, dotted: bool)
    ensures Ranged(TailsSlots(t, at, inFrom, dotted), at, at + |PrintTails(t)|)
  {
    hide Ranged, PrintExpr, ExprSlots, EndsPoint;
    match t
    case NoTail => NoneRanged(at, at);
    case Tail(keyword, body, more) =>
      var k, kept, next := at + 1 + |PrintExpr(body)|, inFrom && dotted, EndsPoint([keyword] + PrintExpr(body));
      var end := at + |PrintTails(t)|;
      ExprRanged(body, at + 1, kept, false);
      TailsRanged(more, k, kept, next);
      RangedTwo(ExprSlots(body, at + 1, kept, false), TailsSlots(more, k, kept, next), at, at + 1, k, end, end);
  }

  lemma {:induction false} PickedRanged(p: Picked, at: nat, kept: bool)
    ensures Ranged(PickedSlots(p, at, kept), at, at + |PrintPicked(p)|)
  {
    hide Ranged, PrintExpr, ExprSlots;
    match p
    case NoPick => NoneRanged(at, at);
    case Pick(_, items) =>
      var end := at + 1 + |PrintExpr(items)|;
      ExprRanged(items, at + 1, kept, false);
      RangedIn(ExprSlots(items, at + 1, kept, false), at, at + 1, end, end);
  }

  lemma {:induction false} CoreRanged(c: Core, at: nat, inFrom: bool, due: bool)
    ensures Ranged(CoreSlots(c, at, inFrom, due), at, at + |PrintCore(c)|)
  {
    hide Ranged, PrintExpr, PrintFrom, PrintPicked, ExprSlots, FromSlots, PickedSlots, QuerySlots, PrintQuery,
      EndsPoint, FromEnd;
    var end := at + |PrintCore(c)|;
    match c
    case SelectCore(_, items, clause) =>
      var j, seen := at + 1 + |PrintExpr(items)|, !EndsPoint(PrintExpr(items));
      ExprRanged(items, at + 1, false, false);
      FromRanged(clause, j, false, seen);
      RangedTwo(ExprSlots(items, at + 1, false, false), FromSlots(clause, j, false, seen), at, at + 1, j, end, end);
    case FromCore(clause, picked) =>
      var j, kept := at + |PrintFrom(clause)|, CoreEnd(c, inFrom, due);
      FromRanged(clause, at, inFrom, true);
      PickedRanged(picked, j, kept);
      RangedTwo(FromSlots(clause, at, inFrom, true), PickedSlots(picked, j, kept), at, at, j, end, end);
    case ValuesCore(_, rows) =>
      ExprRanged(rows, at + 1, inFrom && !due, false);
      RangedIn(ExprSlots(rows, at + 1, inFrom && !due, false), at, at + 1, end, end);
    case PivotCore(_, relations) =>
      RelationsRanged(relations, at + 1, true, true, true);
      RangedIn(RelationsSlots(relations, at + 1, true, true, true), at, at + 1, at + 1 + |PrintRelations(relations)|, end);
    case ParenCore(_, query, _) =>
      QueryRanged(query, at + 1, due, due);
      RangedIn(QuerySlots(query, at + 1, due, due), at, at + 1, at + 1 + |PrintQuery(query)|, end);
  }

  lemma {:induction false} TermRanged(t: Term, at: nat, inFrom: bool, due: bool)
    ensures Ranged(TermSlots(t, at, inFrom, due), at, at + |PrintTerm(t)|)
  {
    hide Ranged, CoreSlots, TailsSlots, PrintCore, PrintTails, EndsPoint, CoreEnd;
    var j, kept, dotted := at + |PrintCore(t.core)|, CoreEnd(t.core, inFrom, due), EndsPoint(PrintCore(t.core));
    var end := at + |PrintTerm(t)|;
    CoreRanged(t.core, at, inFrom, due);
    TailsRanged(t.tails, j, kept, dotted);
    RangedTwo(CoreSlots(t.core, at, inFrom, due), TailsSlots(t.tails, j, kept, dotted), at, at, j, end, end);
  }

  lemma {:induction false} QueryRanged(q: Query, at: nat, inFrom: bool, due: bool)
    ensures Ranged(QuerySlots(q, at, inFrom, due), at, at + |PrintQuery(q)|)
  {
    hide Ranged, PrintExpr, PrintTerm, ExprSlots, TermSlots, TermEnd, EndsPoint;
    var end := at + |PrintQuery(q)|;
    match q
    case Single(term) => TermRanged(term, at, inFrom, due);
    case Combined(term, _, quantifier, rest) =>
      var j := at + |PrintTerm(term)|;
      var k, kept := j + 1 + |quantifier|, EndsPoint(PrintTerm(term)) && TermEnd(term, inFrom, due);
      TermRanged(term, at, inFrom, due);
      QueryRanged(rest, k, kept, false);
      RangedIn(TermSlots(term, at, inFrom, due), at, at, j, k);
      RangedTwo(TermSlots(term, at, inFrom, due), QuerySlots(rest, k, kept, false), at, at, k, end, end);
    case WithQuery(_, ctes, body) =>
      var k := at + 1 + |PrintExpr(ctes)|;
      ExprRanged(ctes, at + 1, inFrom, false);
      QueryRanged(body, k, inFrom, false);
      RangedTwo(ExprSlots(ctes, at + 1, inFrom, false), QuerySlots(body, k, inFrom, false), at, at + 1, k, end, end);
  }

  // ---------------------------------------------------------------- main results

  /**
   * On every text whose tokens spell a query of the grammar, the rewriter marks exactly the registered
   * three-part names where it expects a relation, in order; a trailing semicolon is allowed.
   */
  lemma GrammarMarks(q: Query, registry: map<string, string>, tail: seq<Atom>, lists: bool)
    requires WfQuery(q, false, false, lists) && (tail == [] || (|tail| == 1 && IsSymbol(tail[0], ';')))
    ensures Marks(PrintQuery(q) + tail, registry) == Taken(QuerySlots(q, 0, false, false), registry)
  {
    hide KeywordOf, Role, WfQuery, QuerySlots, PrintQuery, Runs, RunTo, Marks, Taken, FromFirst;
    var xs := PrintQuery(q);
    var atoms := xs + tail;
    assert At(atoms, 0, xs);
    assert NoDot(atoms, |xs|);
    OpeningQuery(q, false, false, lists);
    var last := QueryRuns(atoms, registry, q, lists, 0, [], TOP_SCOPE, []);
    var marks := Taken(QuerySlots(q, 0, false, false), registry);
    assert [] + marks == marks;
    var st := Stacked(|xs|, [], last, marks);
    assert INITIAL == Stacked(0, [], TOP_SCOPE, []);
    if tail != [] {
      SemicolonRuns(atoms, registry, st);
    } else {
      RunEnd(atoms, registry, st);
    }
    RunsToEnd(atoms, registry, st);
  }

  /** Running on from a state of the run gives the marks of the whole run. */
  lemma RunsToEnd(atoms: seq<Atom>, registry: map<string, string>, st: State)
    requires Runs(atoms, registry, INITIAL, st)
    ensures Marks(atoms, registry) == RunTo(atoms, registry, st, |atoms|).marks
  {
    hide RunTo;
    RunToTrans(atoms, registry, INITIAL, st.index, |atoms|);
  }

  lemma SemicolonRuns(atoms: seq<Atom>, registry: map<string, string>, st: State)
    requires st.scopes != [] && st.index + 1 == |atoms| && IsSymbol(atoms[st.index], ';')
    ensures RunTo(atoms, registry, st, |atoms|).marks == st.marks
  {
    hide KeywordOf, Role, ScopeAfterWord, IsExternalName, ThreePart, IsDistinctFrom;
  }

  /** Both kinds of marks are the same exactly when no registered slot is read other than it is meant. */
  lemma {:induction false} TakenIsMeantIff(slots: seq<Slot>, registry: map<string, string>, lo: nat, hi: nat)
    requires Ranged(slots, lo, hi)
    ensures Taken(slots, registry) == Meant(slots, registry) <==>
      forall s | s in slots && s.name in registry :: s.code == s.meant
    ensures forall m | m in Taken(slots, registry) || m in Meant(slots, registry) :: lo <= m.first < hi
  {
    if slots != [] {
      var s, rest := slots[0], slots[1..];
      assert Ranged(rest, s.first + 1, hi);
      TakenIsMeantIff(rest, registry, s.first + 1, hi);
      var t, m := Taken(rest, registry), Meant(rest, registry);
      assert forall x | x in slots :: x == s || x in rest;
      assert s in slots && forall x | x in rest :: x in slots;
      if IsTaken(s, registry) == IsMeant(s, registry) {
        var head := if IsTaken(s, registry) then [Mark(s.first, s.name)] else [];
        assert Taken(slots, registry) == head + t && Meant(slots, registry) == head + m;
        assert head + t == head + m ==> t == (head + t)[|head|..] == m;
      } else {
        assert s.name in registry && s.code != s.meant;
        FirstDiffers(Mark(s.first, s.name), t, m);
      }
    }
  }

  lemma FirstDiffers(mark: Mark, a: seq<Mark>, b: seq<Mark>)
    requires forall x | x in a || x in b :: x.first > mark.first
    ensures [mark] + a != b && a != [mark] + b
  {
    if b != [] {
      assert b[0] in b;
    }
    if a != [] {
      assert a[0] in a;
    }
  }

  /**
   * The rewriter marks exactly the registered relations of a query, unless it reads a registered name other
   * than the query means it: behind a FROM, JOIN, SELECT, clause word or set operator that a dot hides; behind
   * the FROM that begins a call of `trim`; behind a comma in brackets of a FROM list; or where a relation name
   * is called as a function or goes on with a fourth part.
   */
  lemma GrammarExactIff(q: Query, registry: map<string, string>, tail: seq<Atom>, lists: bool)
    requires WfQuery(q, false, false, lists) && (tail == [] || (|tail| == 1 && IsSymbol(tail[0], ';')))
    ensures Marks(PrintQuery(q) + tail, registry) == Meant(QuerySlots(q, 0, false, false), registry) <==>
      forall s | s in QuerySlots(q, 0, false, false) && s.name in registry :: s.code == s.meant
  {
    hide WfQuery, QuerySlots, PrintQuery, Marks, Taken, Meant;
    GrammarMarks(q, registry, tail, lists);
    QueryRanged(q, 0, false, false);
    TakenIsMeantIff(QuerySlots(q, 0, false, false), registry, 0, 0 + |PrintQuery(q)|);
  }

  /**
   * The text-level form: the rewritten text of a query replaces exactly those names, each by the
   * `delta_scan` of its storage location, and keeps every other character.
   */
  lemma GrammarRewrite(sql: string, q: Query, tail: seq<Atom>, registry: map<string, string>, lists: bool)
    requires WfQuery(q, false, false, lists) && (tail == [] || (|tail| == 1 && IsSymbol(tail[0], ';')))
    requires AtomsOf(TokensOf(sql)) == PrintQuery(q) + tail
    ensures
      var marks := Taken(QuerySlots(q, 0, false, false), registry);
      && (forall k | 0 <= k < |marks| :: marks[k].first + 4 < |TokensOf(sql)| && marks[k].name in registry)
      && EditsOk(sql, 0, EditsOf(TokensOf(sql), registry, marks))
      && Rewrite(sql, registry) == Substitute(sql, 0, EditsOf(TokensOf(sql), registry, marks))
  {
    hide TokensOf, QuerySlots, WfQuery, PrintQuery, Marks, AtomsOf, RunTo, Taken;
    GrammarMarks(q, registry, tail, lists);
    RewriteIs(sql, registry, Taken(QuerySlots(q, 0, false, false), registry));
  }
}
