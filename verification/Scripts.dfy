/**
 * Scripts of statements: queries, what stands around a query (INSERT, CREATE, EXPLAIN), UPDATE with its FROM, and
 * DELETE or MERGE with their USING, with a semicolon after each.
 */
module Scripts {
  import opened Text
  import opened SqlTokens
  import opened Rewriter
  import opened QueryGrammar
  import opened RewriteGrammar
  import opened KeywordsSeen
  import opened ClearQueries

  /** What a DELETE or MERGE writes to. */
  datatype Target = Into(words: Expr) | FromTarget(from: Atom, relation: Relation)

  datatype Statement =
    | Around(prefix: Expr, query: Query)                          // `SELECT …`, `INSERT INTO t SELECT …`
    | Updating(prefix: Expr, clause: FromClause, tails: Tails)    // `UPDATE t SET x = y FROM u WHERE …`
    | Writing(verb: Atom, target: Target, using: Atom, source: Relations, tails: Tails)

  datatype Script = Finish | Next(statement: Statement, semicolon: seq<Atom>, rest: Script)

  // ---------------------------------------------------------------- printing

  function PrintTarget(t: Target): seq<Atom> {
    match t
    case Into(words) => PrintExpr(words)
    case FromTarget(from, r) => [from] + (PrintBody(r) + PrintExpr(r.trail))
  }

  function PrintStatement(s: Statement): seq<Atom> {
    match s
    case Around(prefix, query) => PrintExpr(prefix) + PrintQuery(query)
    case Updating(prefix, clause, tails) => PrintExpr(prefix) + PrintFrom(clause) + PrintTails(tails)
    case Writing(verb, target, using, source, tails) =>
      ([verb] + PrintTarget(target)) + ([using] + PrintRelations(source)) + PrintTails(tails)
  }

  function PrintScript(s: Script): seq<Atom> {
    match s
    case Finish => []
    case Next(statement, semicolon, rest) => PrintStatement(statement) + semicolon + PrintScript(rest)
  }

  // ---------------------------------------------------------------- well-formedness

  predicate WfTarget(t: Target, lists: bool) {
    match t
    case Into(words) => WfExpr(words, TARGET, false, false, lists) && !Starts(PrintExpr(words), '.')
    case FromTarget(from, r) =>
      && IsWord(from, From) && r.Named? && PartsOk(r.parts)
      && (IsHead(r.head) || ThreePart(PrintBody(r), 0)) && !IsWord(r.head, Using)
      && WfExpr(r.trail, TARGET, true, false, lists) && !Starts(PrintExpr(r.trail), '.')
  }

  predicate WfStatement(s: Statement, lists: bool) {
    match s
    case Around(prefix, query) =>
      var xs := PrintExpr(prefix);
      && WfExpr(prefix, PLAIN_LIST, false, false, lists) && !EndsPoint(xs) && !EndsTest(xs)
      && WfQuery(query, false, false, lists)
    case Updating(prefix, clause, tails) =>
      var xs, ys := PrintExpr(prefix), PrintFrom(clause);
      && WfExpr(prefix, PLAIN_LIST, false, false, lists) && !EndsTest(xs)
      && clause.FromList? && WfFrom(clause, false, !EndsPoint(xs), lists)
      && WfTails(tails, FromEnd(clause, false, !EndsPoint(xs)), EndsPoint(ys), lists)
    case Writing(verb, target, using, source, tails) =>
      && IsWord(verb, DeleteOrMerge) && WfTarget(target, lists) && !EndsPoint(PrintTarget(target))
      && IsWord(using, Using) && WfRelations(source, true, true, lists)
      && WfTails(tails, RelationsEnd(source, true), EndsPoint(PrintRelations(source)), lists)
  }

  predicate WfScript(s: Script, lists: bool) {
    match s
    case Finish => true
    case Next(statement, semicolon, rest) =>
      && WfStatement(statement, lists)
      && (semicolon == [] || (|semicolon| == 1 && IsSymbol(semicolon[0], ';')))
      && (rest.Next? ==> semicolon != []) && WfScript(rest, lists)
  }

  // ---------------------------------------------------------------- the three-part names of a script

  function TargetSlots(t: Target, at: nat): seq<Slot> {
    match t
    case Into(words) => ExprSlots(words, at, false, false)
    case FromTarget(_, r) =>
      BodySlots(r, at + 1, true, true) + ExprSlots(r.trail, at + 1 + |PrintBody(r)|, true, false)
  }

  function StatementSlots(s: Statement, at: nat): seq<Slot> {
    match s
    case Around(prefix, query) =>
      ExprSlots(prefix, at, false, false) + QuerySlots(query, at + |PrintExpr(prefix)|, false, false)
    case Updating(prefix, clause, tails) =>
      var j := at + |PrintExpr(prefix)|;
      var seen := !EndsPoint(PrintExpr(prefix));
      (ExprSlots(prefix, at, false, false) + FromSlots(clause, j, false, seen))
      + TailsSlots(tails, j + |PrintFrom(clause)|, FromEnd(clause, false, seen), EndsPoint(PrintFrom(clause)))
    case Writing(_, target, _, source, tails) =>
      var k := at + 1 + |PrintTarget(target)|;
      (TargetSlots(target, at + 1) + RelationsSlots(source, k + 1, true, true, true))
      + TailsSlots(tails, k + 1 + |PrintRelations(source)|, RelationsEnd(source, true), EndsPoint(PrintRelations(source)))
  }

  function ScriptSlots(s: Script, at: nat): seq<Slot> {
    match s
    case Finish => []
    case Next(statement, semicolon, rest) =>
      StatementSlots(statement, at) + ScriptSlots(rest, at + |PrintStatement(statement)| + |semicolon|)
  }

  // ---------------------------------------------------------------- runs

  /** A statement begins here: at the start of the text or behind a semicolon. */
  predicate Begins(atoms: seq<Atom>, i: nat) { i <= |atoms| && (i > 0 ==> IsSymbol(atoms[i - 1], ';')) }

  lemma BeginsPlain(atoms: seq<Atom>, i: nat, xs: seq<Atom>)
    requires Begins(atoms, i) && At(atoms, i, xs) && !EndsTest(xs)
    ensures IsQualifiedPart(atoms, i + |xs|) == EndsPoint(xs)
    ensures i + |xs| < |atoms| ==> !IsDistinctFrom(atoms, i + |xs|)
  {
    hide KeywordOf, Role;
    QualifiedAfter(atoms, i, xs);
    var j, n := i + |xs|, |xs|;
    if n >= 1 {
      assert atoms[i + (n - 1)] == xs[n - 1] && atoms[j - 1] == xs[n - 1];
    }
    if n >= 2 {
      assert atoms[i + (n - 2)] == xs[n - 2] && atoms[j - 2] == xs[n - 2];
    }
    if n >= 3 {
      assert atoms[i + (n - 3)] == xs[n - 3] && atoms[j - 3] == xs[n - 3];
    }
  }

  /** A semicolon ends what the statement before it left behind. */
  lemma SemicolonResets(atoms: seq<Atom>, registry: map<string, string>, i: nat, below: seq<Scope>, top: Scope,
                        marks: seq<Mark>)
    requires i < |atoms| && IsSymbol(atoms[i], ';')
    ensures Runs(atoms, registry, Stacked(i, below, top, marks), Stacked(i + 1, below, TOP_SCOPE, marks))
  {
    hide ScopeAfterWord, KeywordOf, Role, IsExternalName, ThreePart, IsDistinctFrom, IsQualifiedPart;
    StackedTop(i, below, top, marks);
    RunsOneStep(atoms, registry, Stacked(i, below, top, marks));
  }

  /** The words in front of a query. */
  lemma PrefixRuns(atoms: seq<Atom>, registry: map<string, string>, prefix: Expr, lists: bool, i: nat, marks: seq<Mark>)
    requires WfExpr(prefix, PLAIN_LIST, false, false, lists) && At(atoms, i, PrintExpr(prefix))
    requires NoDot(atoms, i + |PrintExpr(prefix)|)
    ensures Runs(atoms, registry, Stacked(i, [], TOP_SCOPE, marks),
                 Stacked(i + |PrintExpr(prefix)|, [], TOP_SCOPE,
                         marks + Taken(ExprSlots(prefix, i, false, false), registry)))
  {
    hide Runs, WfExpr, PrintExpr, ExprSlots, Taken, At, NoDot, ExprDue;
    ExprRuns(atoms, registry, prefix, PLAIN_LIST, lists, i, [], TOP_SCOPE, marks);
    ExprNeedsFrom(prefix);
    assert Set(TOP_SCOPE, false) == TOP_SCOPE;
  }

  lemma AroundRuns(atoms: seq<Atom>, registry: map<string, string>, s: Statement, lists: bool, i: nat, marks: seq<Mark>)
    returns (last: Scope)
    requires s.Around? && WfStatement(s, lists) && At(atoms, i, PrintStatement(s)) && Begins(atoms, i)
    requires NoDot(atoms, i + |PrintStatement(s)|)
    ensures Runs(atoms, registry, Stacked(i, [], TOP_SCOPE, marks),
                 Stacked(i + |PrintStatement(s)|, [], last, marks + Taken(StatementSlots(s, i), registry)))
  {
    hide Runs, WfExpr, PrintExpr, ExprSlots, Taken, At, NoDot, WfQuery, PrintQuery, QuerySlots, EndsPoint, EndsTest,
      IsDistinctFrom, IsQualifiedPart, Begins, FromFirst;
    var xs, ys := PrintExpr(s.prefix), PrintQuery(s.query);
    var j := i + |xs|;
    AtSplit(atoms, i, xs, ys);
    OpeningQuery(s.query, false, false, lists);
    FirstNoDot(atoms, j, ys);
    BeginsPlain(atoms, i, xs);
    AtLength(atoms, j, ys);
    PrefixRuns(atoms, registry, s.prefix, lists, i, marks);
    var m1 := marks + Taken(ExprSlots(s.prefix, i, false, false), registry);
    last := QueryRuns(atoms, registry, s.query, lists, j, [], TOP_SCOPE, m1);
    TakenTwo(marks, ExprSlots(s.prefix, i, false, false), QuerySlots(s.query, j, false, false), registry);
    RunsTrans(atoms, registry, Stacked(i, [], TOP_SCOPE, marks), Stacked(j, [], TOP_SCOPE, m1),
              Stacked(j + |ys|, [], last, m1 + Taken(QuerySlots(s.query, j, false, false), registry)));
  }

  lemma UpdatingRuns(atoms: seq<Atom>, registry: map<string, string>, s: Statement, lists: bool, i: nat, marks: seq<Mark>)
    returns (last: Scope)
    requires s.Updating? && WfStatement(s, lists) && At(atoms, i, PrintStatement(s)) && Begins(atoms, i)
    requires NoDot(atoms, i + |PrintStatement(s)|)
    ensures Runs(atoms, registry, Stacked(i, [], TOP_SCOPE, marks),
                 Stacked(i + |PrintStatement(s)|, [], last, marks + Taken(StatementSlots(s, i), registry)))
  {
    hide Runs, WfExpr, PrintExpr, ExprSlots, Taken, At, NoDot, WfFrom, PrintFrom, FromSlots, FromEnd, WfTails,
      PrintTails, TailsSlots, EndsPoint, EndsTest, IsDistinctFrom, IsQualifiedPart, Begins, TailsEnd;
    var Updating(prefix, clause, tails) := s;
    var xs, ys, zs := PrintExpr(prefix), PrintFrom(clause), PrintTails(tails);
    var j := i + |xs|;
    var k := j + |ys|;
    var seen := !EndsPoint(xs);
    var kept := FromEnd(clause, false, seen);
    AtThree(atoms, i, xs, ys, zs);
    ClauseOpens(clause, false, seen, lists);
    FirstNoDot(atoms, j, ys);
    OpeningTails(tails, kept, EndsPoint(ys), lists);
    FirstNoDot(atoms, k, zs);
    BeginsPlain(atoms, i, xs);
    QualifiedAfter(atoms, j, ys);
    PrefixRuns(atoms, registry, prefix, lists, i, marks);
    var m1 := marks + Taken(ExprSlots(prefix, i, false, false), registry);
    var t1 := FromRuns(atoms, registry, clause, seen, lists, j, [], TOP_SCOPE, m1);
    var m2 := m1 + Taken(FromSlots(clause, j, false, seen), registry);
    last := TailsRuns(atoms, registry, tails, EndsPoint(ys), lists, k, [], t1, m2);
    TakenTwo(marks, ExprSlots(prefix, i, false, false), FromSlots(clause, j, false, seen), registry);
    TakenTwo(marks, ExprSlots(prefix, i, false, false) + FromSlots(clause, j, false, seen),
             TailsSlots(tails, k, kept, EndsPoint(ys)), registry);
    RunsFour(atoms, registry, Stacked(i, [], TOP_SCOPE, marks), Stacked(j, [], TOP_SCOPE, m1), Stacked(k, [], t1, m2),
             Stacked(k + |zs|, [], last, m2 + Taken(TailsSlots(tails, k, kept, EndsPoint(ys)), registry)));
  }

  lemma ClauseOpens(f: FromClause, inFrom: bool, seen: bool, lists: bool)
    requires f.FromList? && WfFrom(f, inFrom, seen, lists)
    ensures PrintFrom(f) != [] && !Starts(PrintFrom(f), '.')
  {
    hide KeywordOf, Role, PrintRelations, WfRelations;
  }

  // ---------------------------------------------------------------- DELETE and MERGE

  /** The scope behind the DELETE or MERGE of a statement. */
  function Opened(verb: Atom): Scope { TOP_SCOPE.(writeKind := Some(Upper(verb.value)), writeSourcePending := true) }

  lemma VerbOpens(atoms: seq<Atom>, registry: map<string, string>, i: nat, marks: seq<Mark>)
    requires Begins(atoms, i) && i < |atoms| && IsWord(atoms[i], DeleteOrMerge)
    ensures Runs(atoms, registry, Stacked(i, [], TOP_SCOPE, marks), Stacked(i + 1, [], Opened(atoms[i]), marks))
  {
    hide Runs, ScopeAfterWord, KeywordOf, Role, IsDistinctFrom, Upper;
    WordRuns(atoms, registry, i, [], TOP_SCOPE, marks);
    VerbScope(atoms, i, TOP_SCOPE, IsDistinctFrom(atoms, i));
  }

  lemma TargetRuns(atoms: seq<Atom>, registry: map<string, string>, t: Target, lists: bool, i: nat, verb: Atom,
                   marks: seq<Mark>) returns (last: Scope)
    requires WfTarget(t, lists) && At(atoms, i, PrintTarget(t)) && NoDot(atoms, i + |PrintTarget(t)|)
    requires i < |atoms| && !IsQualifiedPart(atoms, i) && !IsDistinctFrom(atoms, i)
    ensures Runs(atoms, registry, Stacked(i, [], Opened(verb), marks),
                 Stacked(i + |PrintTarget(t)|, [], last, marks + Taken(TargetSlots(t, i), registry)))
    ensures last.writeSourcePending
  {
    hide Runs, WfExpr, PrintExpr, ExprSlots, Taken, At, NoDot, KeywordOf, Role, ExprDue, IsDistinctFrom,
      IsQualifiedPart, Upper, PrintBody, BodySlots, IsExternalName, ThreePart, PartsOk, IsHead;
    match t
    case Into(words) =>
      ExprRuns(atoms, registry, words, TARGET, lists, i, [], Opened(verb), marks);
      last := Set(Opened(verb), ExprDue(words, false, false));
    case FromTarget(from, r) =>
      last := FromTargetRuns(atoms, registry, t, lists, i, verb, marks);
  }

  lemma FromTargetRuns(atoms: seq<Atom>, registry: map<string, string>, t: Target, lists: bool, i: nat, verb: Atom,
                       marks: seq<Mark>) returns (last: Scope)
    requires t.FromTarget? && WfTarget(t, lists) && At(atoms, i, PrintTarget(t)) && NoDot(atoms, i + |PrintTarget(t)|)
    requires i < |atoms| && !IsQualifiedPart(atoms, i) && !IsDistinctFrom(atoms, i)
    ensures Runs(atoms, registry, Stacked(i, [], Opened(verb), marks),
                 Stacked(i + |PrintTarget(t)|, [], last, marks + Taken(TargetSlots(t, i), registry)))
    ensures last.writeSourcePending
  {
    hide Runs, WfExpr, PrintExpr, ExprSlots, Taken, At, NoDot, KeywordOf, Role, ExprDue, IsDistinctFrom,
      IsQualifiedPart, Upper, IsExternalName, ThreePart, PartsOk, IsHead, ScopeAfterWord, PrintParts, NameSlots,
      EndsName, IsTableName;
    var FromTarget(from, r) := t;
    var x, y := PrintBody(r), PrintExpr(r.trail);
    var j := i + 1 + |x|;
    AtOne(atoms, i, from, x + y);
    AtSplit(atoms, i + 1, x, y);
    FirstNoDot(atoms, j, y);
    var t0, t1 := Opened(verb), Opened(verb).(inFrom := true, expectRelation := true);
    WordRuns(atoms, registry, i, [], t0, marks);
    BareFromScope(t0, from.value);
    DottedRuns(atoms, registry, r.head, r.parts, IsTableName(r), i + 1, [], t1, marks);
    assert BodySlots(r, i + 1, true, true) == NameSlots(x, i + 1, true, IsTableName(r));
    var t2 := Set(t1, false);
    var m1 := marks + Taken(BodySlots(r, i + 1, true, true), registry);
    ExprRuns(atoms, registry, r.trail, TARGET, lists, j, [], t2, m1);
    last := Set(t2, ExprDue(r.trail, true, false));
    TakenTwo(marks, BodySlots(r, i + 1, true, true), ExprSlots(r.trail, j, true, false), registry);
    RunsFour(atoms, registry, Stacked(i, [], t0, marks), Stacked(i + 1, [], t1, marks), Stacked(j, [], t2, m1),
             Stacked(j + |y|, [], last, m1 + Taken(ExprSlots(r.trail, j, true, false), registry)));
  }

  /** The USING that a DELETE or MERGE waits for, and the relations behind it. */
  lemma SourceRuns(atoms: seq<Atom>, registry: map<string, string>, using: Atom, source: Relations, lists: bool, i: nat,
                   top: Scope, marks: seq<Mark>) returns (last: Scope)
    requires IsWord(using, Using) && WfRelations(source, true, true, lists) && top.writeSourcePending
    requires At(atoms, i, [using] + PrintRelations(source)) && NoDot(atoms, i + 1 + |PrintRelations(source)|)
    requires !IsQualifiedPart(atoms, i)
    ensures Runs(atoms, registry, Stacked(i, [], top, marks),
                 Stacked(i + 1 + |PrintRelations(source)|, [], last,
                         marks + Taken(RelationsSlots(source, i + 1, true, true, true), registry)))
    ensures Calm(last) && last.inFrom == RelationsEnd(source, true)
  {
    hide Runs, KeywordOf, Role, ScopeAfterWord, IsDistinctFrom, IsQualifiedPart, NoDot, At, IsExternalName,
      ThreePart, WfRelations, PrintRelations, RelationsSlots, Taken, RelationsEnd, Starts;
    var x := PrintRelations(source);
    AtOne(atoms, i, using, x);
    OpeningRelations(source, true, true, lists);
    FirstNoDot(atoms, i + 1, x) by {
      assert !Starts(x, '.');
    }
    NotExternal(atoms, i);
    WordRuns(atoms, registry, i, [], top, marks);
    UsingScope(top, using.value, false, IsDistinctFrom(atoms, i));
    var t1 := top.(inFrom := true, expectRelation := true, writeSourcePending := false);
    last := RelationsRuns(atoms, registry, source, true, lists, i + 1, [], t1, marks);
    RunsTrans(atoms, registry, Stacked(i, [], top, marks), Stacked(i + 1, [], t1, marks),
              Stacked(i + 1 + |x|, [], last, marks + Taken(RelationsSlots(source, i + 1, true, true, true), registry)));
  }

  lemma WritingRuns(atoms: seq<Atom>, registry: map<string, string>, s: Statement, lists: bool, i: nat, marks: seq<Mark>)
    returns (last: Scope)
    requires s.Writing? && WfStatement(s, lists) && At(atoms, i, PrintStatement(s)) && Begins(atoms, i)
    requires NoDot(atoms, i + |PrintStatement(s)|)
    ensures Runs(atoms, registry, Stacked(i, [], TOP_SCOPE, marks),
                 Stacked(i + |PrintStatement(s)|, [], last, marks + Taken(StatementSlots(s, i), registry)))
  {
    hide Runs, Taken, At, NoDot, WfTarget, PrintTarget, TargetSlots, WfRelations, PrintRelations, RelationsSlots,
      RelationsEnd, WfTails, PrintTails, TailsSlots, EndsPoint, IsDistinctFrom, IsQualifiedPart, Begins, TailsEnd,
      KeywordOf, Role;
    var Writing(verb, target, using, source, tails) := s;
    var xs, ys, zs := PrintTarget(target), PrintRelations(source), PrintTails(tails);
    var k := i + 1 + |xs|;
    var n := k + 1 + |ys|;
    var kept, dotted := RelationsEnd(source, true), EndsPoint(ys);
    WritingSegments(atoms, s, lists, i);
    VerbOpens(atoms, registry, i, marks);
    FromBehindVerb(atoms, i);
    var t1 := TargetRuns(atoms, registry, target, lists, i + 1, verb, marks);
    var m1 := marks + Taken(TargetSlots(target, i + 1), registry);
    var t2 := SourceRuns(atoms, registry, using, source, lists, k, t1, m1);
    var m2 := m1 + Taken(RelationsSlots(source, k + 1, true, true, true), registry);
    last := TailsRuns(atoms, registry, tails, dotted, lists, n, [], t2, m2);
    TakenTwo(marks, TargetSlots(target, i + 1), RelationsSlots(source, k + 1, true, true, true), registry);
    TakenTwo(marks, TargetSlots(target, i + 1) + RelationsSlots(source, k + 1, true, true, true),
             TailsSlots(tails, n, kept, dotted), registry);
    var end := Stacked(n + |zs|, [], last, m2 + Taken(TailsSlots(tails, n, kept, dotted), registry));
    RunsFour(atoms, registry, Stacked(i, [], TOP_SCOPE, marks), Stacked(i + 1, [], Opened(verb), marks), Stacked(k, [], t1, m1),
             Stacked(n, [], t2, m2));
    RunsTrans(atoms, registry, Stacked(i, [], TOP_SCOPE, marks), Stacked(n, [], t2, m2), end);
  }

  /** The tokens around the parts of a DELETE or MERGE. */
  lemma WritingSegments(atoms: seq<Atom>, s: Statement, lists: bool, i: nat)
    requires s.Writing? && WfStatement(s, lists) && At(atoms, i, PrintStatement(s)) && NoDot(atoms, i + |PrintStatement(s)|)
    ensures
      var xs, ys, zs := PrintTarget(s.target), PrintRelations(s.source), PrintTails(s.tails);
      var k, n := i + 1 + |xs|, i + 2 + |xs| + |ys|;
      && i + 1 < |atoms| && atoms[i] == s.verb && At(atoms, i + 1, xs) && NoDot(atoms, k)
      && At(atoms, k, [s.using] + ys) && !IsQualifiedPart(atoms, k) && NoDot(atoms, n)
      && At(atoms, n, zs) && NoDot(atoms, n + |zs|) && IsQualifiedPart(atoms, n) == EndsPoint(ys)
      && |PrintStatement(s)| == 2 + |xs| + |ys| + |zs|
  {
    hide *;
    var xs, ys, zs := PrintTarget(s.target), PrintRelations(s.source), PrintTails(s.tails);
    var k := i + 1 + |xs|;
    WritingIs(s, lists);
    AtThree(atoms, i, [s.verb] + xs, [s.using] + ys, zs);
    AtOne(atoms, i, s.verb, xs);
    AtOne(atoms, k, s.using, ys);
    KeywordIsNoDot(s.verb, DeleteOrMerge);
    QualifiedBehind(atoms, i, xs);
    WordNoDot(atoms, k, Using);
    KeywordIsNoDot(s.using, Using);
    QualifiedBehind(atoms, k, ys);
    OpeningTails(s.tails, RelationsEnd(s.source, true), EndsPoint(ys), lists);
    FirstNoDot(atoms, k + 1 + |ys|, zs);
  }

  lemma WritingIs(s: Statement, lists: bool)
    requires s.Writing? && WfStatement(s, lists)
    ensures
      var xs, ys, zs := PrintTarget(s.target), PrintRelations(s.source), PrintTails(s.tails);
      && PrintStatement(s) == ([s.verb] + xs) + ([s.using] + ys) + zs && |PrintStatement(s)| == 2 + |xs| + |ys| + |zs|
      && IsKeyword(s.verb, DeleteOrMerge) && IsKeyword(s.using, Using) && IsWord(s.using, Using) && !EndsPoint(xs)
      && WfTails(s.tails, RelationsEnd(s.source, true), EndsPoint(ys), lists)
  {
    hide WfTarget, PrintTarget, WfRelations, PrintRelations, RelationsEnd, WfTails, PrintTails, EndsPoint, KeywordOf, Role;
  }

  // ---------------------------------------------------------------- whole scripts

  lemma StatementRuns(atoms: seq<Atom>, registry: map<string, string>, s: Statement, lists: bool, i: nat, marks: seq<Mark>)
    returns (last: Scope)
    requires WfStatement(s, lists) && At(atoms, i, PrintStatement(s)) && Begins(atoms, i)
    requires NoDot(atoms, i + |PrintStatement(s)|)
    ensures Runs(atoms, registry, Stacked(i, [], TOP_SCOPE, marks),
                 Stacked(i + |PrintStatement(s)|, [], last, marks + Taken(StatementSlots(s, i), registry)))
  {
    hide *;
    match s
    case Around(_, _) => last := AroundRuns(atoms, registry, s, lists, i, marks);
    case Updating(_, _, _) => last := UpdatingRuns(atoms, registry, s, lists, i, marks);
    case Writing(_, _, _, _, _) => last := WritingRuns(atoms, registry, s, lists, i, marks);
  }

  lemma {:induction false} ScriptRuns(atoms: seq<Atom>, registry: map<string, string>, s: Script, lists: bool, i: nat,
                                      marks: seq<Mark>) returns (last: Scope)
    requires WfScript(s, lists) && At(atoms, i, PrintScript(s)) && i + |PrintScript(s)| == |atoms|
    requires s.Next? ==> Begins(atoms, i)
    ensures Runs(atoms, registry, Stacked(i, [], if s.Finish? then last else TOP_SCOPE, marks),
                 Stacked(|atoms|, [], last, marks + Taken(ScriptSlots(s, i), registry)))
  {
    hide Runs, WfStatement, PrintStatement, StatementSlots, Taken, At;
    TakenNone(marks, registry);
    last := TOP_SCOPE;
    match s
    case Finish =>
      RunsSame(atoms, registry, Stacked(i, [], TOP_SCOPE, marks));
    case Next(statement, semicolon, rest) =>
      var xs, zs := PrintStatement(statement), PrintScript(rest);
      var j := i + |xs|;
      var m1 := marks + Taken(StatementSlots(statement, i), registry);
      AtThree(atoms, i, xs, semicolon, zs);
      SemicolonThere(atoms, j, semicolon);
      last := StatementRuns(atoms, registry, statement, lists, i, marks);
      if semicolon != [] {
        SemicolonResets(atoms, registry, j, [], last, m1);
        RunsTrans(atoms, registry, Stacked(i, [], TOP_SCOPE, marks), Stacked(j, [], last, m1),
                  Stacked(j + 1, [], TOP_SCOPE, m1));
        last := TOP_SCOPE;
      }
      if rest.Next? {
        last := ScriptRuns(atoms, registry, rest, lists, j + 1, m1);
      }
      TakenTwo(marks, StatementSlots(statement, i), ScriptSlots(rest, j + |semicolon|), registry);
      if rest.Next? {
        RunsTrans(atoms, registry, Stacked(i, [], TOP_SCOPE, marks), Stacked(j + 1, [], TOP_SCOPE, m1),
                  Stacked(|atoms|, [], last, m1 + Taken(ScriptSlots(rest, j + 1), registry)));
      } else {
        TakenNone(m1, registry);
      }
  }

  lemma SemicolonThere(atoms: seq<Atom>, i: nat, semicolon: seq<Atom>)
    requires At(atoms, i, semicolon) && (semicolon == [] || (|semicolon| == 1 && IsSymbol(semicolon[0], ';')))
    ensures i <= |atoms|
    ensures semicolon != [] ==>
      i < |atoms| && IsSymbol(atoms[i], ';') && NoDot(atoms, i) && Begins(atoms, i + 1)
  {
    if semicolon != [] {
      assert atoms[i + 0] == semicolon[0];
    }
  }

  // ---------------------------------------------------------------- slots stand in order

  lemma TargetRanged(t: Target, at: nat)
    ensures Ranged(TargetSlots(t, at), at, at + |PrintTarget(t)|)
  {
    hide Ranged, PrintBody, BodySlots, PrintExpr, ExprSlots;
    match t
    case Into(words) => ExprRanged(words, at, false, false);
    case FromTarget(_, r) =>
      var j, end := at + 1 + |PrintBody(r)|, at + |PrintTarget(t)|;
      BodyRanged(r, at + 1, true, true);
      ExprRanged(r.trail, j, true, false);
      RangedTwo(BodySlots(r, at + 1, true, true), ExprSlots(r.trail, j, true, false), at, at + 1, j, end, end);
  }

  lemma StatementRanged(s: Statement, at: nat)
    ensures Ranged(StatementSlots(s, at), at, at + |PrintStatement(s)|)
  {
    hide Ranged, PrintExpr, ExprSlots, PrintQuery, QuerySlots, PrintFrom, FromSlots, FromEnd, PrintTails, TailsSlots,
      PrintTarget, TargetSlots, PrintRelations, RelationsSlots, RelationsEnd, EndsPoint;
    var end := at + |PrintStatement(s)|;
    match s
    case Around(prefix, query) =>
      var j := at + |PrintExpr(prefix)|;
      ExprRanged(prefix, at, false, false);
      QueryRanged(query, j, false, false);
      RangedTwo(ExprSlots(prefix, at, false, false), QuerySlots(query, j, false, false), at, at, j, end, end);
    case Updating(prefix, clause, tails) =>
      var j, seen := at + |PrintExpr(prefix)|, !EndsPoint(PrintExpr(prefix));
      var k, kept, dotted := j + |PrintFrom(clause)|, FromEnd(clause, false, seen), EndsPoint(PrintFrom(clause));
      ExprRanged(prefix, at, false, false);
      FromRanged(clause, j, false, seen);
      TailsRanged(tails, k, kept, dotted);
      RangedTwo(ExprSlots(prefix, at, false, false), FromSlots(clause, j, false, seen), at, at, j, k, k);
      RangedTwo(ExprSlots(prefix, at, false, false) + FromSlots(clause, j, false, seen), TailsSlots(tails, k, kept, dotted),
                at, at, k, end, end);
    case Writing(_, target, _, source, tails) =>
      var k := at + 1 + |PrintTarget(target)|;
      var n, kept, dotted := k + 1 + |PrintRelations(source)|, RelationsEnd(source, true), EndsPoint(PrintRelations(source));
      TargetRanged(target, at + 1);
      RelationsRanged(source, k + 1, true, true, true);
      TailsRanged(tails, n, kept, dotted);
      RangedIn(TargetSlots(target, at + 1), at + 1, at + 1, k, k + 1);
      RangedTwo(TargetSlots(target, at + 1), RelationsSlots(source, k + 1, true, true, true), at + 1, at + 1, k + 1, n, n);
      RangedTwo(TargetSlots(target, at + 1) + RelationsSlots(source, k + 1, true, true, true),
                TailsSlots(tails, n, kept, dotted), at, at + 1, n, end, end);
  }

  lemma {:induction false} ScriptRanged(s: Script, at: nat)
    ensures Ranged(ScriptSlots(s, at), at, at + |PrintScript(s)|)
  {
    hide Ranged, StatementSlots, PrintStatement;
    match s
    case Finish => NoneRanged(at, at);
    case Next(statement, semicolon, rest) =>
      var j, end := at + |PrintStatement(statement)|, at + |PrintScript(s)|;
      StatementRanged(statement, at);
      ScriptRanged(rest, j + |semicolon|);
      RangedIn(StatementSlots(statement, at), at, at, j, j + |semicolon|);
      RangedTwo(StatementSlots(statement, at), ScriptSlots(rest, j + |semicolon|), at, at, j + |semicolon|, end, end);
  }

  // ---------------------------------------------------------------- clear scripts

  lemma WritingAgrees(s: Statement, at: nat, registry: map<string, string>)
    requires s.Writing? && WfStatement(s, false) && Clear(PrintStatement(s), registry)
    ensures Agree(StatementSlots(s, at), registry)
  {
    hide Clear, Agree, WfTarget, PrintTarget, TargetSlots, WfRelations, PrintRelations, RelationsSlots,
      RelationsEnd, WfTails, PrintTails, TailsSlots, EndsPoint, KeywordOf, Role;
    var Writing(verb, target, using, source, tails) := s;
    var xs, ys, zs := PrintTarget(target), PrintRelations(source), PrintTails(tails);
    var k := at + 1 + |xs|;
    var kept, dotted := RelationsEnd(source, true), EndsPoint(ys);
    ClearThree([verb] + xs, [using] + ys, zs, registry);
    ClearParts([verb], xs, registry);
    ClearParts([using], ys, registry);
    assert ([using] + ys) + zs == [using] + (ys + zs);
    ClearParts([using], ys + zs, registry);
    TargetAgrees(target, at + 1, registry);
    RelationsAgree(source, k + 1, registry);
    TailsAgree(tails, k + 1 + |ys|, ys, kept, registry);
    AgreeTwo(TargetSlots(target, at + 1), RelationsSlots(source, k + 1, true, true, true), registry);
    AgreeTwo(TargetSlots(target, at + 1) + RelationsSlots(source, k + 1, true, true, true),
             TailsSlots(tails, k + 1 + |ys|, kept, dotted), registry);
  }

  lemma TargetAgrees(t: Target, at: nat, registry: map<string, string>)
    requires WfTarget(t, false) && Clear(PrintTarget(t), registry)
    ensures Agree(TargetSlots(t, at), registry)
  {
    hide Clear, Agree, PrintExpr, WfExpr, ExprSlots, PrintBody, BodySlots, IsHead, KeywordOf, Role, Starts,
      IsExternalName, ThreePart;
    match t
    case Into(words) => ExprAgrees(words, TARGET, false, false, at, registry);
    case FromTarget(from, r) =>
      var x, y := PrintBody(r), PrintExpr(r.trail);
      ClearParts([from], x + y, registry);
      ClearParts(x, y, registry);
      NameAgrees(r, at + 1, registry);
      ExprAgrees(r.trail, TARGET, true, false, at + 1 + |x|, registry);
      AgreeTwo(BodySlots(r, at + 1, true, true), ExprSlots(r.trail, at + 1 + |x|, true, false), registry);
  }

  lemma UpdatingAgrees(s: Statement, at: nat, registry: map<string, string>)
    requires s.Updating? && WfStatement(s, false) && Clear(PrintStatement(s), registry)
    ensures Agree(StatementSlots(s, at), registry)
  {
    hide Clear, Agree, PrintExpr, WfExpr, ExprSlots, PrintFrom, WfFrom, FromSlots, FromEnd, PrintTails, WfTails,
      TailsSlots, EndsPoint, EndsTest, KeywordOf, Role, CanHide;
    var Updating(prefix, clause, tails) := s;
    var xs, ys, zs := PrintExpr(prefix), PrintFrom(clause), PrintTails(tails);
    var j, seen := at + |xs|, !EndsPoint(xs);
    var kept, dotted := FromEnd(clause, false, seen), EndsPoint(ys);
    ClearThree(xs, ys, zs, registry);
    FromLeads(clause, false, seen);
    NotHidden(xs, ys, registry);
    ExprAgrees(prefix, PLAIN_LIST, false, false, at, registry);
    FromAgrees(clause, j, false, seen, registry);
    TailsAgree(tails, j + |ys|, ys, kept, registry);
    AgreeTwo(ExprSlots(prefix, at, false, false), FromSlots(clause, j, false, seen), registry);
    AgreeTwo(ExprSlots(prefix, at, false, false) + FromSlots(clause, j, false, seen),
             TailsSlots(tails, j + |ys|, kept, dotted), registry);
  }

  lemma StatementAgrees(s: Statement, at: nat, registry: map<string, string>)
    requires WfStatement(s, false) && Clear(PrintStatement(s), registry)
    ensures Agree(StatementSlots(s, at), registry)
  {
    match s
    case Around(prefix, query) =>
      hide Clear, Agree, PrintExpr, WfExpr, ExprSlots, PrintQuery, WfQuery, QuerySlots, EndsPoint, EndsTest;
      var xs, ys := PrintExpr(prefix), PrintQuery(query);
      ClearParts(xs, ys, registry);
      ExprAgrees(prefix, PLAIN_LIST, false, false, at, registry);
      QueryAgrees(query, false, false, at + |xs|, registry);
      AgreeTwo(ExprSlots(prefix, at, false, false), QuerySlots(query, at + |xs|, false, false), registry);
    case Updating(_, _, _) => hide *; UpdatingAgrees(s, at, registry);
    case Writing(_, _, _, _, _) => hide *; WritingAgrees(s, at, registry);
  }

  lemma {:induction false} ScriptAgrees(s: Script, at: nat, registry: map<string, string>)
    requires WfScript(s, false) && Clear(PrintScript(s), registry)
    ensures Agree(ScriptSlots(s, at), registry)
  {
    hide Clear, Agree, WfStatement, PrintStatement, StatementSlots;
    match s
    case Finish => AgreeNone(registry);
    case Next(statement, semicolon, rest) =>
      var j := at + |PrintStatement(statement)| + |semicolon|;
      ClearThree(PrintStatement(statement), semicolon, PrintScript(rest), registry);
      StatementAgrees(statement, at, registry);
      ScriptAgrees(rest, j, registry);
      AgreeTwo(StatementSlots(statement, at), ScriptSlots(rest, j), registry);
  }

  // ---------------------------------------------------------------- main results

  /** For every script: exactly the registered names where a relation is expected are marked, in order. */
  lemma ScriptMarks(s: Script, registry: map<string, string>, lists: bool)
    requires WfScript(s, lists)
    ensures Marks(PrintScript(s), registry) == Taken(ScriptSlots(s, 0), registry)
  {
    hide Runs, RunTo, Marks, Taken, WfScript, ScriptSlots, PrintScript;
    var atoms, marks := PrintScript(s), Taken(ScriptSlots(s, 0), registry);
    assert At(atoms, 0, atoms) && [] + marks == marks;
    var last := ScriptRuns(atoms, registry, s, lists, 0, []);
    assert INITIAL == Stacked(0, [], TOP_SCOPE, []);
    if s.Finish? {
      EmptyScript(s);
      RunEnd(atoms, registry, INITIAL);
      RunsSame(atoms, registry, INITIAL);
      RunsToEnd(atoms, registry, INITIAL);
      TakenNone([], registry);
    } else {
      var st := Stacked(|atoms|, [], last, marks);
      RunEnd(atoms, registry, st);
      RunsToEnd(atoms, registry, st);
    }
  }

  lemma EmptyScript(s: Script)
    requires s.Finish?
    ensures PrintScript(s) == [] && ScriptSlots(s, 0) == []
  {
  }

  /** The marks are the registered relations exactly when every registered name is read as it is meant. */
  lemma ScriptExactIff(s: Script, registry: map<string, string>, lists: bool)
    requires WfScript(s, lists)
    ensures Marks(PrintScript(s), registry) == Meant(ScriptSlots(s, 0), registry) <==>
      forall x | x in ScriptSlots(s, 0) && x.name in registry :: x.code == x.meant
  {
    hide WfScript, ScriptSlots, PrintScript, Marks, Taken, Meant;
    ScriptMarks(s, registry, lists);
    ScriptRanged(s, 0);
    TakenIsMeantIff(ScriptSlots(s, 0), registry, 0, 0 + |PrintScript(s)|);
  }

  /** On the text of a script exactly those names are replaced, each by its `delta_scan`; all other text stays. */
  lemma ScriptRewrite(sql: string, s: Script, registry: map<string, string>, lists: bool)
    requires WfScript(s, lists) && AtomsOf(TokensOf(sql)) == PrintScript(s)
    ensures
      var marks := Taken(ScriptSlots(s, 0), registry);
      && (forall k | 0 <= k < |marks| :: marks[k].first + 4 < |TokensOf(sql)| && marks[k].name in registry)
      && EditsOk(sql, 0, EditsOf(TokensOf(sql), registry, marks))
      && Rewrite(sql, registry) == Substitute(sql, 0, EditsOf(TokensOf(sql), registry, marks))
  {
    hide TokensOf, ScriptSlots, WfScript, PrintScript, Marks, AtomsOf, RunTo, Taken;
    ScriptMarks(s, registry, lists);
    RewriteIs(sql, registry, Taken(ScriptSlots(s, 0), registry));
  }

  /** In a clear script exactly the registered relations are replaced, whatever is registered. */
  lemma ClearScript(sql: string, s: Script, registry: map<string, string>)
    requires WfScript(s, false) && AtomsOf(TokensOf(sql)) == PrintScript(s) && Clear(AtomsOf(TokensOf(sql)), registry)
    ensures
      var marks := Meant(ScriptSlots(s, 0), registry);
      && Marks(AtomsOf(TokensOf(sql)), registry) == marks
      && (forall k | 0 <= k < |marks| :: marks[k].first + 4 < |TokensOf(sql)| && marks[k].name in registry)
      && EditsOk(sql, 0, EditsOf(TokensOf(sql), registry, marks))
      && Rewrite(sql, registry) == Substitute(sql, 0, EditsOf(TokensOf(sql), registry, marks))
  {
    hide TokensOf, ScriptSlots, WfScript, PrintScript, Marks, AtomsOf, Taken, Meant, Clear, Rewrite;
    ScriptAgrees(s, 0, registry);
    ScriptExactIff(s, registry, false);
    ScriptMarks(s, registry, false);
    ScriptRewrite(sql, s, registry, false);
  }
}
