/** Which keywords and commas the rewriter acts on: exact conditions in any context it may have reached. */
module KeywordsSeen {
  import opened Text
  import opened SqlTokens
  import opened Rewriter
  import opened QueryGrammar
  import opened RewriteGrammar

  /** Running on keeps the marks made and adds marks from the present token on. */
  lemma {:induction false} RunAppends(atoms: seq<Atom>, registry: map<string, string>, st: State, stop: nat)
    requires st.scopes != [] && stop <= |atoms|
    ensures var r := RunTo(atoms, registry, st, stop);
      st.marks <= r.marks && forall k | |st.marks| <= k < |r.marks| :: r.marks[k].first >= st.index
    decreases |atoms| - st.index
  {
    if st.index < stop {
      hide MoveAt;
      RunAppends(atoms, registry, Step(atoms, registry, st), stop);
    }
  }

  /** Whether a name is marked is settled once the run has passed it, and not before it gets there. */
  lemma MarkedIff(atoms: seq<Atom>, registry: map<string, string>, before: State, after: State, m: Mark)
    requires Runs(atoms, registry, INITIAL, before) && Runs(atoms, registry, INITIAL, after)
    requires before.index <= m.first < after.index
    ensures m !in before.marks && (m in Marks(atoms, registry) <==> m in after.marks)
  {
    hide Marks, MoveAt, ExternalName, CatalogName, IsExternalName, ThreePart;
    RunMarks(atoms, registry, INITIAL, before.index) by { NoMarksOk(atoms, registry); }
    RunsToEnd(atoms, registry, after);
    RunAppends(atoms, registry, after, |atoms|);
    var r := RunTo(atoms, registry, after, |atoms|);
    if m in r.marks {
      var k :| 0 <= k < |r.marks| && r.marks[k] == m;
      assert k < |after.marks|;
    }
    if m in after.marks {
      var k :| 0 <= k < |after.marks| && after.marks[k] == m;
      assert r.marks[k] == m;
    }
    hide RunTo;
  }

  /** A registered three-part name stands at `i`. */
  ghost predicate NameAt(atoms: seq<Atom>, registry: map<string, string>, i: nat, head: Atom, parts: seq<Part>) {
    && At(atoms, i, [head] + PrintParts(parts)) && |parts| == 2 && PartsOk(parts) && IsHead(head)
    && NoDot(atoms, i + 1 + |PrintParts(parts)|) && ThreePart([head] + PrintParts(parts), 0)
    && CatalogName([head] + PrintParts(parts), 0) in registry
  }

  function MarkOf(i: nat, head: Atom, parts: seq<Part>): Mark
    requires |parts| == 2
  {
    Mark(i, head.value + "." + parts[0].name.value + "." + parts[1].name.value)
  }

  lemma MarkIs(i: nat, head: Atom, parts: seq<Part>)
    requires |parts| == 2
    ensures var xs := [head] + PrintParts(parts); |xs| == 5 && MarkOf(i, head, parts) == Mark(i, ExternalName(xs, 0))
  {
    assert PrintParts(parts[2..]) == [];
    assert PrintParts(parts[1..]) == [parts[1].dot, parts[1].name] + PrintParts(parts[2..]);
  }

  /** A three-part name is marked exactly when a relation is expected there. */
  lemma NameMarkedIff(atoms: seq<Atom>, registry: map<string, string>, i: nat, head: Atom, parts: seq<Part>,
                      below: seq<Scope>, top: Scope, before: State)
    requires NameAt(atoms, registry, i, head, parts) && NotUsing(top, head)
    requires Runs(atoms, registry, INITIAL, before) && before.index <= i
    requires Runs(atoms, registry, INITIAL, Stacked(i, below, top, before.marks))
    ensures MarkOf(i, head, parts) in Marks(atoms, registry) <==> top.expectRelation
  {
    hide Runs, Marks, IsExternalName, ThreePart, ExternalName, CatalogName, IsHead, PartsOk, PrintParts, At, NoDot;
    var xs := [head] + PrintParts(parts);
    MarkIs(i, head, parts);
    var s := Slot(i, ExternalName(xs, 0), top.expectRelation, true);
    DottedRuns(atoms, registry, head, parts, true, i, below, top, before.marks);
    TakenOne(s, registry);
    assert NameSlots(xs, i, top.expectRelation, true) == [s];
    hide Taken;
    var after := Stacked(i + 5, below, Set(top, false), before.marks + Taken([s], registry));
    RunsTrans(atoms, registry, INITIAL, Stacked(i, below, top, before.marks), after);
    MarkedIff(atoms, registry, before, after, MarkOf(i, head, parts));
  }

  /** In any context: the relation behind a FROM of a SELECT is marked exactly when no dot stands before the FROM. */
  lemma FromSeenIff(atoms: seq<Atom>, registry: map<string, string>, i: nat, head: Atom, parts: seq<Part>,
                    below: seq<Scope>, top: Scope, marks: seq<Mark>)
    requires Runs(atoms, registry, INITIAL, Stacked(i, below, top, marks)) && Calm(top)
    requires (top.queryStarted || top.allowBareFrom) && !top.expectRelation
    requires i < |atoms| && IsWord(atoms[i], From) && !EndsTest(atoms[..i])
    requires NameAt(atoms, registry, i + 1, head, parts)
    ensures MarkOf(i + 1, head, parts) in Marks(atoms, registry) <==> !IsQualifiedPart(atoms, i)
  {
    hide Runs, Marks, NameAt, ScopeAfterWord, KeywordOf, Role, IsDistinctFrom, IsQualifiedPart;
    var dotted := IsQualifiedPart(atoms, i);
    TestBefore(atoms, i);
    WordRuns(atoms, registry, i, below, top, marks);
    FromScope(top, atoms[i].value, dotted);
    var t1 := if dotted then Set(top, false) else top.(inFrom := true, expectRelation := true);
    RunsTrans(atoms, registry, INITIAL, Stacked(i, below, top, marks), Stacked(i + 1, below, t1, marks));
    NameMarkedIff(atoms, registry, i + 1, head, parts, below, t1, Stacked(i, below, top, marks));
  }

  /** In any context: the relation behind a JOIN is marked exactly when no dot stands before the JOIN. */
  lemma JoinSeenIff(atoms: seq<Atom>, registry: map<string, string>, i: nat, head: Atom, parts: seq<Part>,
                    below: seq<Scope>, top: Scope, marks: seq<Mark>)
    requires Runs(atoms, registry, INITIAL, Stacked(i, below, top, marks)) && Calm(top) && !top.expectRelation
    requires i < |atoms| && IsWord(atoms[i], Join) && NameAt(atoms, registry, i + 1, head, parts)
    ensures MarkOf(i + 1, head, parts) in Marks(atoms, registry) <==> !IsQualifiedPart(atoms, i)
  {
    hide Runs, Marks, NameAt, ScopeAfterWord, KeywordOf, Role, IsDistinctFrom, IsQualifiedPart;
    var dotted := IsQualifiedPart(atoms, i);
    WordRuns(atoms, registry, i, below, top, marks);
    JoinScope(top, atoms[i].value, dotted, IsDistinctFrom(atoms, i));
    var t1 := if dotted then Set(top, false) else top.(inFrom := true, expectRelation := true);
    RunsTrans(atoms, registry, INITIAL, Stacked(i, below, top, marks), Stacked(i + 1, below, t1, marks));
    NameMarkedIff(atoms, registry, i + 1, head, parts, below, t1, Stacked(i, below, top, marks));
  }

  /** A name right behind a comma is marked exactly when the rewriter is in a FROM list. */
  lemma CommaMarksIff(atoms: seq<Atom>, registry: map<string, string>, i: nat, head: Atom, parts: seq<Part>,
                      below: seq<Scope>, top: Scope, marks: seq<Mark>)
    requires Runs(atoms, registry, INITIAL, Stacked(i, below, top, marks)) && Calm(top)
    requires i < |atoms| && IsSymbol(atoms[i], ',') && NameAt(atoms, registry, i + 1, head, parts)
    ensures MarkOf(i + 1, head, parts) in Marks(atoms, registry) <==> top.inFrom
  {
    hide Runs, Marks, NameAt;
    CommaRuns(atoms, registry, i, below, top, marks);
    var t1 := Set(top, top.inFrom || top.expectRelation);
    RunsTrans(atoms, registry, INITIAL, Stacked(i, below, top, marks), Stacked(i + 1, below, t1, marks));
    NameMarkedIff(atoms, registry, i + 1, head, parts, below, t1, Stacked(i, below, top, marks));
  }

  /** What stands between a FROM list and an expression in it: nothing, a clause word, or a parenthesis. */
  ghost predicate IsOpener(opener: seq<Atom>) {
    |opener| <= 1 && (opener != [] ==> IsWord(opener[0], ClauseEnd) || IsSymbol(opener[0], '('))
  }

  /** The rewriter takes the commas behind the opener for those of the FROM list. */
  predicate ListGoesOn(atoms: seq<Atom>, i: nat, opener: seq<Atom>) {
    opener == [] || (IsWord(opener[0], ClauseEnd) && IsQualifiedPart(atoms, i))
  }

  /** From a FROM list on, past an opener and some expression. */
  lemma OpenerRuns(atoms: seq<Atom>, registry: map<string, string>, i: nat, opener: seq<Atom>,
                   below: seq<Scope>, top: Scope, marks: seq<Mark>) returns (below': seq<Scope>, top': Scope)
    requires Runs(atoms, registry, INITIAL, Stacked(i, below, top, marks))
    requires top.inFrom && !top.expectRelation && !top.writeSourcePending
    requires IsOpener(opener) && At(atoms, i, opener)
    ensures Runs(atoms, registry, INITIAL, Stacked(i + |opener|, below', top', marks))
    ensures Calm(top') && !top'.expectRelation && top'.inFrom == ListGoesOn(atoms, i, opener)
  {
    hide Runs, ScopeAfterWord, KeywordOf, Role, IsDistinctFrom, IsQualifiedPart;
    below', top' := below, top;
    if opener != [] {
      assert atoms[i + 0] == opener[0];
      if IsSymbol(opener[0], '(') {
        OpenRuns(atoms, registry, i, below, top, marks);
        below', top' := below + [Set(top, false)], Inner(atoms, i, top);
      } else {
        WordRuns(atoms, registry, i, below, top, marks);
        ClauseEndScope(top, opener[0].value, IsQualifiedPart(atoms, i), IsDistinctFrom(atoms, i));
        top' := ScopeAfterWord(top, opener[0].value, IsQualifiedPart(atoms, i), IsDistinctFrom(atoms, i));
      }
      RunsTrans(atoms, registry, INITIAL, Stacked(i, below, top, marks), Stacked(i + 1, below', top', marks));
    }
  }

  /** An expression that the rewriter reads in a FROM list or not, and the index behind it. */
  ghost predicate ExprAt(atoms: seq<Atom>, i: nat, e: Expr, spot: Spot, inFrom: bool, lists: bool) {
    At(atoms, i, PrintExpr(e)) && WfExpr(e, spot, inFrom, false, lists)
  }

  function Past(i: nat, e: Expr): nat { i + |PrintExpr(e)| }

  /** A comma and a registered three-part name behind it. */
  ghost predicate CommaName(atoms: seq<Atom>, registry: map<string, string>, k: nat, head: Atom, parts: seq<Part>) {
    k < |atoms| && IsSymbol(atoms[k], ',') && NameAt(atoms, registry, k + 1, head, parts)
  }

  lemma CommaThere(atoms: seq<Atom>, registry: map<string, string>, k: nat, head: Atom, parts: seq<Part>)
    requires CommaName(atoms, registry, k, head, parts)
    ensures k < |atoms| && IsSymbol(atoms[k], ',') && NoDot(atoms, k) && NameAt(atoms, registry, k + 1, head, parts)
    ensures |parts| == 2
  {
  }

  /** From a FROM list on, past an opener and an expression. */
  lemma ExprPast(atoms: seq<Atom>, registry: map<string, string>, e: Expr, spot: Spot, lists: bool, i: nat,
                 below: seq<Scope>, top: Scope, marks: seq<Mark>) returns (top': Scope, marks': seq<Mark>)
    requires Runs(atoms, registry, INITIAL, Stacked(i, below, top, marks)) && Calm(top) && !top.expectRelation
    requires ExprAt(atoms, i, e, spot, top.inFrom, lists) && !spot.calls && !spot.clauses && NoDot(atoms, Past(i, e))
    ensures Runs(atoms, registry, INITIAL, Stacked(Past(i, e), below, top', marks')) && Calm(top')
    ensures top' == Set(top, ExprDue(e, top.inFrom, false))
  {
    hide Runs, WfExpr, PrintExpr, Taken, ExprSlots, ExprDue, At, NoDot;
    ExprRuns(atoms, registry, e, spot, lists, i, below, top, marks);
    top' := Set(top, ExprDue(e, top.inFrom, false));
    marks' := marks + Taken(ExprSlots(e, i, top.inFrom, false), registry);
    StillSane(top, e);
    RunsTrans(atoms, registry, INITIAL, Stacked(i, below, top, marks), Stacked(Past(i, e), below, top', marks'));
  }

  /**
   * In a FROM list: a name behind the first comma of a clause is marked, though it is no relation, exactly
   * when a dot stands before the clause word; in parentheses it never is.
   */
  lemma ClauseWordSeenIff(atoms: seq<Atom>, registry: map<string, string>, i: nat, opener: seq<Atom>, body: Expr,
                          head: Atom, parts: seq<Part>, lists: bool, below: seq<Scope>, top: Scope, marks: seq<Mark>)
    requires Runs(atoms, registry, INITIAL, Stacked(i, below, top, marks))
    requires top.inFrom && !top.expectRelation && !top.writeSourcePending
    requires IsOpener(opener) && At(atoms, i, opener)
    requires ExprAt(atoms, i + |opener|, body, QUIET, ListGoesOn(atoms, i, opener), lists)
    requires CommaName(atoms, registry, Past(i + |opener|, body), head, parts) && |parts| == 2
    ensures MarkOf(Past(i + |opener|, body) + 1, head, parts) in Marks(atoms, registry) <==> ListGoesOn(atoms, i, opener)
  {
    hide Runs, Marks, NameAt, ListGoesOn, IsOpener, ExprDue, At, ExprAt, Past, CommaName;
    var k := Past(i + |opener|, body);
    CommaThere(atoms, registry, k, head, parts);
    var below', t1 := OpenerRuns(atoms, registry, i, opener, below, top, marks);
    var t2, m1 := ExprPast(atoms, registry, body, QUIET, lists, i + |opener|, below', t1, marks);
    CommaMarksIff(atoms, registry, k, head, parts, below', t2, m1);
  }

  /**
   * In a FROM list: a column behind a comma in brackets is left alone exactly when a parenthesis was opened
   * since, or a clause word came that no dot hides. The bracket stands at `b`.
   */
  lemma ListSeenIff(atoms: seq<Atom>, registry: map<string, string>, i: nat, opener: seq<Atom>, before: Expr, b: nat,
                    inside: Expr, head: Atom, parts: seq<Part>, lists: bool,
                    below: seq<Scope>, top: Scope, marks: seq<Mark>)
    requires Runs(atoms, registry, INITIAL, Stacked(i, below, top, marks))
    requires top.inFrom && !top.expectRelation && !top.writeSourcePending
    requires IsOpener(opener) && At(atoms, i, opener)
    requires ExprAt(atoms, i + |opener|, before, QUIET, ListGoesOn(atoms, i, opener), lists)
    requires !ExprDue(before, ListGoesOn(atoms, i, opener), false)
    requires b == Past(i + |opener|, before) && b < |atoms| && IsOneOf(atoms[b], "[{")
    requires ExprAt(atoms, b + 1, inside, PLAIN_LIST, ListGoesOn(atoms, i, opener), lists)
    requires CommaName(atoms, registry, Past(b + 1, inside), head, parts) && |parts| == 2
    ensures MarkOf(Past(b + 1, inside) + 1, head, parts) !in Marks(atoms, registry) <==> !ListGoesOn(atoms, i, opener)
  {
    hide Runs, Marks, NameAt, ListGoesOn, IsOpener, ExprDue, At, ExprAt, Past, CommaName, IsOneOf, NoDot;
    var k := Past(b + 1, inside);
    CommaThere(atoms, registry, k, head, parts);
    BracketNoDot(atoms, b);
    var below', t1 := OpenerRuns(atoms, registry, i, opener, below, top, marks);
    var t2, m1 := ExprPast(atoms, registry, before, QUIET, lists, i + |opener|, below', t1, marks);
    assert t2 == t1;
    SymbolRuns(atoms, registry, b, below', t1, m1);
    RunsTrans(atoms, registry, INITIAL, Stacked(b, below', t1, m1), Stacked(b + 1, below', t1, m1));
    var t3, m2 := ExprPast(atoms, registry, inside, PLAIN_LIST, lists, b + 1, below', t1, m1);
    CommaMarksIff(atoms, registry, k, head, parts, below', t3, m2);
  }

  lemma BracketNoDot(atoms: seq<Atom>, i: nat)
    requires i < |atoms| && IsOneOf(atoms[i], "[{")
    ensures NoDot(atoms, i) && !IsOneOf(atoms[i], "(),;") && atoms[i].kind == SymbolToken
  {
  }

  /**
   * In any context: the name behind a PIVOT is marked exactly when no dot stands before the PIVOT and no query has
   * begun: no SELECT or PIVOT was seen, and no FROM list, unless a relation is expected in it.
   */
  lemma PivotSeenIff(atoms: seq<Atom>, registry: map<string, string>, i: nat, head: Atom, parts: seq<Part>,
                     below: seq<Scope>, top: Scope, marks: seq<Mark>)
    requires Runs(atoms, registry, INITIAL, Stacked(i, below, top, marks)) && Calm(top)
    requires i < |atoms| && IsWord(atoms[i], Pivot) && NameAt(atoms, registry, i + 1, head, parts)
    ensures MarkOf(i + 1, head, parts) in Marks(atoms, registry) <==>
      !IsQualifiedPart(atoms, i) && !top.queryStarted && (!top.inFrom || top.expectRelation)
  {
    hide Runs, Marks, NameAt, ScopeAfterWord, KeywordOf, Role, IsDistinctFrom, IsQualifiedPart, IsExternalName,
      ThreePart;
    NameNotDotted(atoms, registry, i + 1, head, parts);
    NotExternal(atoms, i);
    WordRuns(atoms, registry, i, below, top, marks);
    PivotScope(top, atoms[i].value, IsQualifiedPart(atoms, i), IsDistinctFrom(atoms, i));
    var t1 := ScopeAfterWord(top, atoms[i].value, IsQualifiedPart(atoms, i), IsDistinctFrom(atoms, i));
    RunsTrans(atoms, registry, INITIAL, Stacked(i, below, top, marks), Stacked(i + 1, below, t1, marks));
    NameMarkedIff(atoms, registry, i + 1, head, parts, below, t1, Stacked(i, below, top, marks));
  }

  lemma NameNotDotted(atoms: seq<Atom>, registry: map<string, string>, i: nat, head: Atom, parts: seq<Part>)
    requires NameAt(atoms, registry, i, head, parts)
    ensures i < |atoms| && atoms[i] == head && NoDot(atoms, i)
  {
    hide KeywordOf, Role, IsExternalName, ThreePart, ExternalName, CatalogName, PartsOk;
    assert atoms[i + 0] == ([head] + PrintParts(parts))[0];
  }

  /**
   * Behind a SELECT: the relation of a PIVOT operand of a set operator is marked exactly when no dot stands
   * before the set operator.
   */
  lemma SetOperatorSeenIff(atoms: seq<Atom>, registry: map<string, string>, i: nat, head: Atom, parts: seq<Part>,
                           below: seq<Scope>, top: Scope, marks: seq<Mark>)
    requires Runs(atoms, registry, INITIAL, Stacked(i, below, top, marks)) && Calm(top)
    requires top.queryStarted && !top.expectRelation
    requires i + 1 < |atoms| && IsWord(atoms[i], SetOperator) && IsWord(atoms[i + 1], Pivot)
    requires NameAt(atoms, registry, i + 2, head, parts)
    ensures MarkOf(i + 2, head, parts) in Marks(atoms, registry) <==> !IsQualifiedPart(atoms, i)
  {
    hide Runs, Marks, NameAt, ScopeAfterWord, KeywordOf, Role, IsDistinctFrom;
    var dotted := IsQualifiedPart(atoms, i);
    WordRuns(atoms, registry, i, below, top, marks);
    SetOperatorScope(top, atoms[i].value, dotted, IsDistinctFrom(atoms, i));
    assert Set(top, false) == top;
    var t1 := if dotted then top
              else top.(inFrom := false, expectRelation := false, queryStarted := false, allowBareFrom := true);
    RunsTrans(atoms, registry, INITIAL, Stacked(i, below, top, marks), Stacked(i + 1, below, t1, marks));
    KeywordIsNoDot(atoms[i], SetOperator);
    WordRuns(atoms, registry, i + 1, below, t1, marks);
    PivotScope(t1, atoms[i + 1].value, false, IsDistinctFrom(atoms, i + 1));
    var t2 := if dotted then top
              else t1.(inFrom := true, expectRelation := true, queryStarted := true, allowBareFrom := false);
    RunsTrans(atoms, registry, INITIAL, Stacked(i + 1, below, t1, marks), Stacked(i + 2, below, t2, marks));
    NameMarkedIff(atoms, registry, i + 2, head, parts, below, t2, Stacked(i, below, top, marks));
  }

  /** The FROM of a call: seen only in a scope that lets FROM stand without a SELECT. */
  lemma CallFromScope(top: Scope, word: string, qualified: bool)
    requires KeywordOf(word) == From && !top.queryStarted && !top.expectRelation
    ensures ScopeAfterWord(top, word, qualified, false) ==
      if top.allowBareFrom && !qualified then top.(inFrom := true, expectRelation := true) else top
  {
    hide KeywordOf, Role;
  }

  /**
   * In any context: the column behind a call's first own FROM is left alone exactly when neither FROM nor WITH
   * is the first token of the call, or a dot stands before the FROM.
   */
  lemma CallFromSeenIff(atoms: seq<Atom>, registry: map<string, string>, i: nat, before: Expr, head: Atom,
                        parts: seq<Part>, lists: bool, below: seq<Scope>, top: Scope, marks: seq<Mark>)
    requires Runs(atoms, registry, INITIAL, Stacked(i, below, top, marks)) && Calm(top) && !top.expectRelation
    requires i < |atoms| && IsSymbol(atoms[i], '(') && At(atoms, i + 1, PrintExpr(before))
    requires WfExpr(before, PLAIN_LIST, false, false, lists) && !EndsTest(PrintExpr(before))
    requires var k := i + 1 + |PrintExpr(before)|;
      k < |atoms| && IsWord(atoms[k], From) && NameAt(atoms, registry, k + 1, head, parts)
    ensures MarkOf(i + 2 + |PrintExpr(before)|, head, parts) !in Marks(atoms, registry) <==>
            !FromAt(atoms, i + 1) || EndsPoint(PrintExpr(before))
  {
    hide Runs, Marks, NameAt, ScopeAfterWord, KeywordOf, Role, IsDistinctFrom, Taken, ExprSlots, WfExpr, PrintExpr,
      FromAt, ExprDue, EndsTest;
    var ys := PrintExpr(before);
    var k := i + 1 + |ys|;
    var inner, stack := Inner(atoms, i, top), below + [Set(top, false)];
    OpenRuns(atoms, registry, i, below, top, marks);
    KeywordIsNoDot(atoms[k], From);
    ExprRuns(atoms, registry, before, PLAIN_LIST, lists, i + 1, stack, inner, marks);
    ExprNeedsFrom(before);
    assert Set(inner, false) == inner;
    var m1 := marks + Taken(ExprSlots(before, i + 1, false, false), registry);
    RunsFour(atoms, registry, INITIAL, Stacked(i, below, top, marks), Stacked(i + 1, stack, inner, marks),
             Stacked(k, stack, inner, m1));
    QualifiedBehind(atoms, i, ys);
    NotAfterDistinct(atoms, i, ys);
    WordRuns(atoms, registry, k, stack, inner, m1);
    CallFromScope(inner, atoms[k].value, EndsPoint(ys));
    var seen := inner.allowBareFrom && !EndsPoint(ys);
    var t1 := if seen then inner.(inFrom := true, expectRelation := true) else inner;
    RunsTrans(atoms, registry, INITIAL, Stacked(k, stack, inner, m1), Stacked(k + 1, stack, t1, m1));
    NameMarkedIff(atoms, registry, k + 1, head, parts, stack, t1, Stacked(k, stack, inner, m1));
  }

  // ---------------------------------------------------------------- DELETE and MERGE

  lemma UsingScope(top: Scope, word: string, qualified: bool, distinctFrom: bool)
    requires KeywordOf(word) == Using
    ensures ScopeAfterWord(top, word, qualified, distinctFrom) ==
      if !qualified && top.writeSourcePending then
        top.(inFrom := true, expectRelation := true, writeSourcePending := false)
      else Set(top, false)
  {
    hide KeywordOf, Role;
  }

  /** The scope behind a USING. */
  function AfterUsing(top: Scope, dotted: bool): Scope {
    if !dotted && top.writeSourcePending then
      top.(inFrom := true, expectRelation := true, writeSourcePending := false)
    else Set(top, false)
  }

  lemma UsingRuns(atoms: seq<Atom>, registry: map<string, string>, i: nat, below: seq<Scope>, top: Scope, marks: seq<Mark>)
    requires i < |atoms| && IsWord(atoms[i], Using) && !IsExternalName(atoms, i)
    requires Runs(atoms, registry, INITIAL, Stacked(i, below, top, marks))
    ensures
      var after := Stacked(i + 1, below, AfterUsing(top, IsQualifiedPart(atoms, i)), marks);
      Runs(atoms, registry, Stacked(i, below, top, marks), after) && Runs(atoms, registry, INITIAL, after)
  {
    hide Runs, ScopeAfterWord, KeywordOf, Role, IsDistinctFrom, IsQualifiedPart, IsExternalName, ThreePart;
    WordRuns(atoms, registry, i, below, top, marks);
    UsingScope(top, atoms[i].value, IsQualifiedPart(atoms, i), IsDistinctFrom(atoms, i));
    RunsTrans(atoms, registry, INITIAL, Stacked(i, below, top, marks),
              Stacked(i + 1, below, AfterUsing(top, IsQualifiedPart(atoms, i)), marks));
  }

  /** In any context: the name behind a USING is marked exactly when a DELETE or MERGE waits for it and no dot hides it. */
  lemma UsingMarksIff(atoms: seq<Atom>, registry: map<string, string>, i: nat, head: Atom, parts: seq<Part>,
                      below: seq<Scope>, top: Scope, marks: seq<Mark>)
    requires Runs(atoms, registry, INITIAL, Stacked(i, below, top, marks))
    requires i < |atoms| && IsWord(atoms[i], Using) && NameAt(atoms, registry, i + 1, head, parts) && !IsWord(head, Using)
    ensures MarkOf(i + 1, head, parts) in Marks(atoms, registry) <==>
      top.writeSourcePending && !IsQualifiedPart(atoms, i)
  {
    hide Runs, Marks, NameAt, ScopeAfterWord, KeywordOf, Role, IsDistinctFrom, IsQualifiedPart, IsExternalName,
      ThreePart;
    NameNotDotted(atoms, registry, i + 1, head, parts);
    NotExternal(atoms, i);
    UsingRuns(atoms, registry, i, below, top, marks);
    var t1 := AfterUsing(top, IsQualifiedPart(atoms, i));
    NameMarkedIff(atoms, registry, i + 1, head, parts, below, t1, Stacked(i, below, top, marks));
  }

  /** A DELETE or MERGE that begins a statement. */
  predicate BeginsWrite(atoms: seq<Atom>, i: nat, top: Scope)
    requires i < |atoms|
  {
    && IsWord(atoms[i], DeleteOrMerge) && !IsQualifiedPart(atoms, i)
    && !top.queryStarted && !top.inFrom && top.writeKind.None?
  }

  /** The scope behind the first word of a statement. */
  function AfterVerb(atoms: seq<Atom>, i: nat, top: Scope): Scope
    requires i < |atoms|
  {
    if BeginsWrite(atoms, i, top) then
      top.(writeKind := Some(Upper(atoms[i].value)), writeSourcePending := true, expectRelation := false)
    else Set(top, false)
  }

  lemma VerbScope(atoms: seq<Atom>, i: nat, top: Scope, distinctFrom: bool)
    requires i < |atoms| && !top.writeSourcePending && !top.expectRelation
    requires IsWord(atoms[i], DeleteOrMerge) || IsOrdinary(atoms[i])
    ensures ScopeAfterWord(top, atoms[i].value, IsQualifiedPart(atoms, i), distinctFrom) == AfterVerb(atoms, i, top)
  {
    hide KeywordOf, Role, Upper, IsQualifiedPart;
  }

  /** From the first word of a statement on: that word, and the FROM of a DELETE. */
  lemma VerbRuns(atoms: seq<Atom>, registry: map<string, string>, i: nat, from: seq<Atom>,
                 below: seq<Scope>, top: Scope, marks: seq<Mark>) returns (top': Scope)
    requires Runs(atoms, registry, INITIAL, Stacked(i, below, top, marks)) && Calm(top) && !top.expectRelation
    requires i < |atoms| && (IsWord(atoms[i], DeleteOrMerge) || IsOrdinary(atoms[i])) && IsTargetFrom(atoms, i, from, top)
    ensures Runs(atoms, registry, INITIAL, Stacked(i + 1 + |from|, below, top', marks))
    ensures top'.writeSourcePending == BeginsWrite(atoms, i, top)
    ensures top'.inFrom == (top.inFrom || from != []) && top'.expectRelation == (from != [])
  {
    hide Runs, ScopeAfterWord, KeywordOf, Role, IsDistinctFrom, IsQualifiedPart, Upper;
    WordRuns(atoms, registry, i, below, top, marks);
    VerbScope(atoms, i, top, IsDistinctFrom(atoms, i));
    top' := AfterVerb(atoms, i, top);
    RunsTrans(atoms, registry, INITIAL, Stacked(i, below, top, marks), Stacked(i + 1, below, top', marks));
    if from != [] {
      assert atoms[i + 1 + 0] == from[0];
      FromBehindVerb(atoms, i);
      WordRuns(atoms, registry, i + 1, below, top', marks);
      BareFromScope(top', from[0].value);
      var t1 := top'.(inFrom := true, expectRelation := true);
      RunsTrans(atoms, registry, INITIAL, Stacked(i + 1, below, top', marks), Stacked(i + 2, below, t1, marks));
      top' := t1;
    }
  }

  /** The FROM of a DELETE, if any. */
  ghost predicate IsTargetFrom(atoms: seq<Atom>, i: nat, from: seq<Atom>, top: Scope)
    requires i < |atoms|
  {
    && |from| <= 1 && At(atoms, i + 1, from)
    && (from != [] ==> IsWord(from[0], From) && IsWord(atoms[i], DeleteOrMerge) && (top.allowBareFrom || top.queryStarted))
  }

  lemma FromBehindVerb(atoms: seq<Atom>, i: nat)
    requires i + 1 < |atoms| && IsWord(atoms[i], DeleteOrMerge)
    ensures !IsQualifiedPart(atoms, i + 1) && !IsDistinctFrom(atoms, i + 1)
  {
    hide KeywordOf, Role;
  }

  /**
   * In a statement that begins at `i`, in any context: the name behind its first USING is marked exactly when the
   * statement is a DELETE or MERGE and no dot stands before the USING. In between stands what the statement
   * writes to, with or without a FROM.
   */
  lemma UsingSeenIff(atoms: seq<Atom>, registry: map<string, string>, i: nat, from: seq<Atom>, target: Expr,
                     head: Atom, parts: seq<Part>, lists: bool, below: seq<Scope>, top: Scope, marks: seq<Mark>)
    requires Runs(atoms, registry, INITIAL, Stacked(i, below, top, marks)) && Calm(top) && !top.expectRelation
    requires i < |atoms| && (IsWord(atoms[i], DeleteOrMerge) || IsOrdinary(atoms[i])) && IsTargetFrom(atoms, i, from, top)
    requires At(atoms, i + 1 + |from|, PrintExpr(target))
    requires WfExpr(target, TARGET, top.inFrom || from != [], from != [], lists)
    requires var k := Past(i + 1 + |from|, target);
      && k < |atoms| && IsWord(atoms[k], Using)
      && NameAt(atoms, registry, k + 1, head, parts) && |parts| == 2 && !IsWord(head, Using)
    ensures MarkOf(Past(i + 1 + |from|, target) + 1, head, parts) in Marks(atoms, registry) <==>
      BeginsWrite(atoms, i, top) && !IsQualifiedPart(atoms, Past(i + 1 + |from|, target))
  {
    hide Runs, Marks, NameAt, KeywordOf, Role, WfExpr, PrintExpr, Taken, ExprSlots, ExprDue, IsOrdinary,
      IsQualifiedPart, At, BeginsWrite, IsTargetFrom, NoDot;
    var j, k := i + 1 + |from|, Past(i + 1 + |from|, target);
    var t1 := VerbRuns(atoms, registry, i, from, below, top, marks);
    KeywordIsNoDot(atoms[k], Using);
    WordNoDot(atoms, k, Using);
    ExprRuns(atoms, registry, target, TARGET, lists, j, below, t1, marks);
    var t2 := Set(t1, ExprDue(target, t1.inFrom, t1.expectRelation));
    var m1 := marks + Taken(ExprSlots(target, j, t1.inFrom, t1.expectRelation), registry);
    RunsTrans(atoms, registry, INITIAL, Stacked(j, below, t1, marks), Stacked(k, below, t2, m1));
    UsingMarksIff(atoms, registry, k, head, parts, below, t2, m1);
  }

  lemma WordNoDot(atoms: seq<Atom>, i: nat, k: Keyword)
    requires i < |atoms| && IsWord(atoms[i], k)
    ensures NoDot(atoms, i)
  {
  }

  /** Behind a USING that no dot hides, the name behind the next USING is never marked. */
  lemma SecondUsing(atoms: seq<Atom>, registry: map<string, string>, i: nat, source: Expr, head: Atom, parts: seq<Part>,
                    lists: bool, below: seq<Scope>, top: Scope, marks: seq<Mark>)
    requires Runs(atoms, registry, INITIAL, Stacked(i, below, top, marks))
    requires i < |atoms| && IsWord(atoms[i], Using) && !IsQualifiedPart(atoms, i) && !IsExternalName(atoms, i)
    requires At(atoms, i + 1, PrintExpr(source))
    requires WfExpr(source, TARGET, top.inFrom || top.writeSourcePending, top.writeSourcePending, lists)
    requires var k := Past(i + 1, source);
      && k < |atoms| && IsWord(atoms[k], Using)
      && NameAt(atoms, registry, k + 1, head, parts) && |parts| == 2 && !IsWord(head, Using)
    ensures MarkOf(Past(i + 1, source) + 1, head, parts) !in Marks(atoms, registry)
  {
    hide Runs, Marks, NameAt, KeywordOf, Role, WfExpr, PrintExpr, Taken, ExprSlots, ExprDue, IsQualifiedPart, At, NoDot,
      IsExternalName, ThreePart;
    var k := Past(i + 1, source);
    var t1 := AfterUsing(top, false);
    UsingRuns(atoms, registry, i, below, top, marks);
    WordNoDot(atoms, k, Using);
    ExprRuns(atoms, registry, source, TARGET, lists, i + 1, below, t1, marks);
    var t2 := Set(t1, ExprDue(source, t1.inFrom, t1.expectRelation));
    var m1 := marks + Taken(ExprSlots(source, i + 1, t1.inFrom, t1.expectRelation), registry);
    RunsTrans(atoms, registry, INITIAL, Stacked(i + 1, below, t1, marks), Stacked(k, below, t2, m1));
    UsingMarksIff(atoms, registry, k, head, parts, below, t2, m1);
  }
}
