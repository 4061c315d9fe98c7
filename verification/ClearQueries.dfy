/** A condition on tokens under which the rewriter reads every name of a query right. */
module ClearQueries {
  import opened Text
  import opened SqlTokens
  import opened Rewriter
  import opened QueryGrammar
  import opened RewriteGrammar

  /** Behind a dot the rewriter overlooks this word. */
  predicate CanHide(a: Atom) {
    IsWord(a, Select) || IsWord(a, From) || IsWord(a, Join) || IsWord(a, ClauseEnd) || IsWord(a, SetOperator)
  }

  predicate Hidden(a: Atom, b: Atom) { IsSymbol(a, '.') && CanHide(b) }

  predicate TrimsFrom(a: Atom, b: Atom, c: Atom) { IsTrim(a) && IsSymbol(b, '(') && IsWord(c, From) }

  /** A name of the catalog is called as a function, or goes on with a fourth part. */
  predicate GoesOn(xs: seq<Atom>, i: nat, registry: map<string, string>) {
    && i + 5 < |xs| && ThreePart(xs, i) && CatalogName(xs, i) in registry
    && (IsSymbol(xs[i + 5], '(') || IsSymbol(xs[i + 5], '.'))
  }

  /**
   * No SELECT, FROM, JOIN, clause word or set operator right behind a dot, no call of `trim` that begins with
   * FROM, and no registered name called as a function or going on with another part.
   */
  predicate Clear(xs: seq<Atom>, registry: map<string, string>) {
    && (forall i | 0 < i < |xs| :: !Hidden(xs[i - 1], xs[i]))
    && (forall i | 1 < i < |xs| :: !TrimsFrom(xs[i - 2], xs[i - 1], xs[i]))
    && (forall i | 0 <= i < |xs| :: !GoesOn(xs, i, registry))
  }

  /** Every registered name is read as it is meant. */
  predicate Agree(slots: seq<Slot>, registry: map<string, string>) {
    forall s | s in slots && s.name in registry :: s.code == s.meant
  }

  // ---------------------------------------------------------------- parts of a clear text

  lemma ClearParts(a: seq<Atom>, b: seq<Atom>, registry: map<string, string>)
    requires Clear(a + b, registry)
    ensures Clear(a, registry) && Clear(b, registry)
    ensures a != [] && b != [] ==> !Hidden(a[|a| - 1], b[0])
  {
    hide Hidden, TrimsFrom, IsExternalName, ThreePart, ExternalName, CatalogName;
    var xs := a + b;
    forall i | 0 < i < |a| ensures !Hidden(a[i - 1], a[i]) {
      assert xs[i - 1] == a[i - 1] && xs[i] == a[i];
    }
    forall i | 0 < i < |b| ensures !Hidden(b[i - 1], b[i]) {
      assert xs[|a| + i - 1] == b[i - 1] && xs[|a| + i] == b[i];
    }
    forall i | 1 < i < |a| ensures !TrimsFrom(a[i - 2], a[i - 1], a[i]) {
      assert xs[i - 2] == a[i - 2] && xs[i - 1] == a[i - 1] && xs[i] == a[i];
    }
    forall i | 1 < i < |b| ensures !TrimsFrom(b[i - 2], b[i - 1], b[i]) {
      assert xs[|a| + i - 2] == b[i - 2] && xs[|a| + i - 1] == b[i - 1] && xs[|a| + i] == b[i];
    }
    forall i | 0 <= i < |a| ensures !GoesOn(a, i, registry) {
      if i + 5 < |a| {
        assert a[i..i + 6] == xs[i..i + 6] && !GoesOn(xs, i, registry);
        SameName(a, i, xs, i, registry);
      }
    }
    forall i | 0 <= i < |b| ensures !GoesOn(b, i, registry) {
      if i + 5 < |b| {
        assert b[i..i + 6] == xs[|a| + i..|a| + i + 6] && !GoesOn(xs, |a| + i, registry);
        SameName(b, i, xs, |a| + i, registry);
      }
    }
    if a != [] && b != [] {
      assert xs[|a| - 1] == a[|a| - 1] && xs[|a|] == b[0];
    }
  }

  lemma SameName(xs: seq<Atom>, i: nat, ys: seq<Atom>, j: nat, registry: map<string, string>)
    requires i + 5 < |xs| && j + 5 < |ys| && xs[i..i + 6] == ys[j..j + 6]
    ensures GoesOn(xs, i, registry) == GoesOn(ys, j, registry)
  {
    var zs := xs[i..i + 6];
    assert zs[0] == xs[i] == ys[j] && zs[1] == xs[i + 1] == ys[j + 1] && zs[2] == xs[i + 2] == ys[j + 2];
    assert zs[3] == xs[i + 3] == ys[j + 3] && zs[4] == xs[i + 4] == ys[j + 4] && zs[5] == xs[i + 5] == ys[j + 5];
  }

  lemma ClearThree(a: seq<Atom>, b: seq<Atom>, c: seq<Atom>, registry: map<string, string>)
    requires Clear(a + b + c, registry)
    ensures Clear(a, registry) && Clear(b, registry) && Clear(c, registry) && Clear(a + b, registry)
    ensures Clear(b + c, registry)
  {
    hide Clear;
    assert a + b + c == a + (b + c);
    ClearParts(a, b + c, registry);
    ClearParts(a + b, c, registry);
    ClearParts(a, b, registry);
  }

  /** What a dot at the end of one part means for the first word of the next. */
  lemma NotHidden(a: seq<Atom>, b: seq<Atom>, registry: map<string, string>)
    requires Clear(a + b, registry) && b != [] && CanHide(b[0])
    ensures !EndsPoint(a)
  {
    ClearParts(a, b, registry);
    hide Clear, CanHide;
  }

  lemma AgreeTwo(a: seq<Slot>, b: seq<Slot>, registry: map<string, string>)
    requires Agree(a, registry) && Agree(b, registry)
    ensures Agree(a + b, registry)
  {
  }

  lemma AgreeNone(registry: map<string, string>)
    ensures Agree([], registry)
  {
  }

  // ---------------------------------------------------------------- expressions

  lemma {:induction false} ItemAgrees(item: Item, spot: Spot, inFrom: bool, at: nat, registry: map<string, string>)
    requires WfItem(item, spot, inFrom, false, false) && Clear(PrintItem(item), registry)
    ensures Agree(ItemSlots(item, at, inFrom, false), registry)
    ensures ItemDue(item, inFrom, false) ==> item.Separator? && inFrom && spot.commas
  {
    hide Clear, Agree, KeywordOf, Role, IsOrdinary, PrintExpr, ExprSlots, WfExpr, PrintQuery, QuerySlots, WfQuery,
      ExprDue, PrintParts, PartsOk, NameSlots;
    match item
    case Group(open, body, close, parts) =>
      ClearParts(Enclosed(open, PrintExpr(body), close), PrintParts(parts), registry);
      ClearThree([open], PrintExpr(body), [close], registry);
      ExprAgrees(body, GroupSpot(PrintExpr(body), false), false, false, at + 1, registry);
    case Bracket(open, body, close, parts) =>
      ClearParts(Enclosed(open, PrintExpr(body), close), PrintParts(parts), registry);
      ClearThree([open], PrintExpr(body), [close], registry);
      ExprAgrees(body, BracketSpot(spot, inFrom, false), inFrom, false, at + 1, registry);
    case TrimFrom(trim, open, from, body, close) =>
      NoTrimFrom(item, registry);
    case Subquery(open, query, close, parts) =>
      ClearParts(Enclosed(open, PrintQuery(query), close), PrintParts(parts), registry);
      ClearThree([open], PrintQuery(query), [close], registry);
      QueryAgrees(query, false, false, at + 1, registry);
    case Column(_, _) =>
      ColumnAgrees(PrintItem(item), at, registry);
    case _ =>
      AgreeNone(registry);
  }

  lemma NoTrimFrom(item: Item, registry: map<string, string>)
    requires item.TrimFrom? && Clear(PrintItem(item), registry)
    ensures !(IsTrim(item.trim) && IsSymbol(item.open, '(') && IsWord(item.from, From))
  {
    hide KeywordOf, Role, GoesOn, Hidden;
    var xs := PrintItem(item);
    assert xs[0] == item.trim && xs[1] == item.open && xs[2] == item.from;
  }

  lemma ColumnAgrees(xs: seq<Atom>, at: nat, registry: map<string, string>)
    ensures Agree(NameSlots(xs, at, false, false), registry)
  {
  }

  /** Outside brackets a comma comes in a FROM list only before the single name of a common table expression. */
  lemma {:induction false} ExprAgrees(e: Expr, spot: Spot, inFrom: bool, due: bool, at: nat, registry: map<string, string>)
    requires WfExpr(e, spot, inFrom, due, false) && Clear(PrintExpr(e), registry)
    requires (due ==> StartsName(e)) && (inFrom && spot.commas ==> spot.names)
    ensures Agree(ExprSlots(e, at, inFrom, due), registry) && !ExprDue(e, inFrom, due)
  {
    hide Clear, Agree, WfItem, ItemSlots, PrintItem, KeywordOf, Role, StartsFromQuery, Starts, EndsName;
    match e
    case Nil => AgreeNone(registry);
    case Cons(item, rest) =>
      ClearParts(PrintItem(item), PrintExpr(rest), registry);
      var k, next := at + |PrintItem(item)|, ItemDue(item, inFrom, due);
      if due {
        LeafAgrees(item, at, inFrom, registry);
      } else {
        ItemAgrees(item, spot, inFrom, at, registry);
      }
      ExprAgrees(rest, spot, inFrom, next, k, registry);
      AgreeTwo(ItemSlots(item, at, inFrom, due), ExprSlots(rest, k, inFrom, next), registry);
  }

  lemma LeafAgrees(item: Item, at: nat, inFrom: bool, registry: map<string, string>)
    requires item.Leaf? && IsHead(item.atom)
    ensures Agree(ItemSlots(item, at, inFrom, true), registry) && !ItemDue(item, inFrom, true)
  {
    hide KeywordOf, Role;
  }

  // ---------------------------------------------------------------- relations

  /** A registered name in relation position is a relation: nothing else follows it. */
  lemma NameAgrees(r: Relation, at: nat, registry: map<string, string>)
    requires r.Named? && PartsOk(r.parts) && !Starts(PrintExpr(r.trail), '.')
    requires Clear(PrintBody(r) + PrintExpr(r.trail), registry)
    ensures Agree(BodySlots(r, at, true, true), registry)
  {
    hide PrintExpr, KeywordOf, Role, PrintParts, IsExternalName, ThreePart, ExternalName, CatalogName;
    var xs, ys := PrintBody(r), PrintExpr(r.trail);
    PartsLength(r.parts);
    if IsExternalName(xs, 0) {
      ExternalLength(xs);
      if ExternalName(xs, 0) in registry && !IsTableName(r) {
        assert !GoesOn(xs + ys, 0, registry);
        hide Clear;
        if |xs| > 5 {
          PartAt(r.parts);
          assert (xs + ys)[5] == PrintParts(r.parts)[4];
        } else {
          assert (xs + ys)[5] == ys[0];
        }
        NameInFront(xs, ys);
        assert false;
      }
    }
  }

  lemma PartAt(parts: seq<Part>)
    requires |parts| > 2 && PartsOk(parts)
    ensures |PrintParts(parts)| > 4 && IsSymbol(PrintParts(parts)[4], '.')
  {
    PartsFrom(parts);
    var rest := parts[2..];
    assert PrintParts(parts)[4] == PrintParts(parts)[4..][0] == PrintParts(rest)[0] == rest[0].dot;
    assert rest[0] in parts;
  }

  lemma NameInFront(xs: seq<Atom>, ys: seq<Atom>)
    requires IsExternalName(xs, 0) && (|xs| == 5 ==> ys != [] && !IsSymbol(ys[0], '.'))
    ensures IsExternalName(xs + ys, 0) && ExternalName(xs + ys, 0) == ExternalName(xs, 0)
  {
    var zs := xs + ys;
    assert zs[0] == xs[0] && zs[1] == xs[1] && zs[2] == xs[2] && zs[3] == xs[3] && zs[4] == xs[4];
    assert |xs| == 5 ==> zs[5] == ys[0];
    assert |xs| > 5 ==> zs[5] == xs[5];
  }

  lemma {:induction false} BodyAgrees(r: Relation, at: nat, registry: map<string, string>)
    requires WfBody(r, true, false) && !Starts(PrintExpr(r.trail), '.')
    requires Clear(PrintBody(r), registry) && Clear(PrintBody(r) + PrintExpr(r.trail), registry)
    ensures Agree(BodySlots(r, at, true, true), registry)
    decreases r, 0
  {
    hide Clear, Agree, KeywordOf, Role, IsOrdinary, IsExternalName, ThreePart, PrintQuery, PrintRelations,
      QuerySlots, RelationsSlots, WfQuery, WfRelations, PrintExpr, Starts, StartsFromQuery, PartsOk, NameSlots,
      IsHead;
    match r
    case Named(_, _, _, _) =>
      NameAgrees(r, at, registry);
    case Derived(_, open, query, close, _) =>
      ClearThree([open], PrintQuery(query), [close], registry);
      QueryAgrees(query, true, true, at + 1, registry);
    case Nested(_, open, relations, close, _) =>
      ClearThree([open], PrintRelations(relations), [close], registry);
      RelationsAgree(relations, at + 1, registry);
  }

  lemma {:induction false} RelationAgrees(r: Relation, at: nat, registry: map<string, string>)
    requires WfRelation(r, true, true, false) && Clear(PrintRelation(r), registry)
    ensures Agree(RelationSlots(r, at, true, true, true), registry)
    decreases r, 1
  {
    hide Clear, Agree, BodySlots, ExprSlots, PrintBody, PrintExpr, WfExpr, WfBody, Starts;
    var first := at + |r.modifiers|;
    var x, y := PrintBody(r), PrintExpr(r.trail);
    ClearThree(r.modifiers, x, y, registry);
    BodyAgrees(r, first, registry);
    ExprAgrees(r.trail, QUIET, true, false, first + |x|, registry);
    AgreeTwo(BodySlots(r, first, true, true), ExprSlots(r.trail, first + |x|, true, false), registry);
  }

  lemma {:induction false} RelationsAgree(r: Relations, at: nat, registry: map<string, string>)
    requires WfRelations(r, true, true, false) && Clear(PrintRelations(r), registry)
    ensures Agree(RelationsSlots(r, at, true, true, true), registry)
  {
    hide Clear, Agree, WfRelation, PrintRelation, RelationSlots, EndsPoint, WfMore, PrintMore, MoreSlots;
    var xs, ys := PrintRelation(r.relation), PrintMore(r.more);
    ClearParts(xs, ys, registry);
    RelationAgrees(r.relation, at, registry);
    MoreAgrees(r.more, at + |xs|, xs, registry);
    AgreeTwo(RelationSlots(r.relation, at, true, true, true), MoreSlots(r.more, at + |xs|, true, EndsPoint(xs), true),
             registry);
  }

  lemma {:induction false} MoreAgrees(m: More, at: nat, before: seq<Atom>, registry: map<string, string>)
    requires WfMore(m, true, EndsPoint(before), false) && Clear(before + PrintMore(m), registry)
    ensures Agree(MoreSlots(m, at, true, EndsPoint(before), true), registry)
  {
    hide Clear, Agree, WfRelation, PrintRelation, RelationSlots, EndsPoint, PrintRelations, WfRelations, RelationsSlots,
      KeywordOf, Role;
    ClearParts(before, PrintMore(m), registry);
    match m
    case Done => AgreeNone(registry);
    case Comma(comma, relations) =>
      ClearParts([comma], PrintRelations(relations), registry);
      RelationsAgree(relations, at + 1, registry);
    case Joined(join, relation, more) =>
      var xs := PrintRelation(relation);
      assert PrintMore(m)[0] == join;
      NotHidden(before, PrintMore(m), registry);
      ClearThree([join], xs, PrintMore(more), registry);
      RelationAgrees(relation, at + 1, registry);
      MoreAgrees(more, at + 1 + |xs|, xs, registry);
      AgreeTwo(RelationSlots(relation, at + 1, true, true, true), MoreSlots(more, at + 1 + |xs|, true, EndsPoint(xs), true),
               registry);
  }

  // ---------------------------------------------------------------- queries

  lemma {:induction false} FromAgrees(f: FromClause, at: nat, inFrom: bool, seen: bool, registry: map<string, string>)
    requires WfFrom(f, inFrom, seen, false) && (f.FromList? ==> seen) && Clear(PrintFrom(f), registry)
    ensures Agree(FromSlots(f, at, inFrom, seen), registry)
  {
    hide Clear, Agree, PrintRelations, RelationsSlots, WfRelations, KeywordOf, Role;
    match f
    case NoFrom => AgreeNone(registry);
    case FromList(from, relations) =>
      ClearParts([from], PrintRelations(relations), registry);
      RelationsAgree(relations, at + 1, registry);
  }

  lemma {:induction false} TailsAgree(t: Tails, at: nat, before: seq<Atom>, inFrom: bool, registry: map<string, string>)
    requires WfTails(t, inFrom, EndsPoint(before), false) && Clear(before + PrintTails(t), registry)
    ensures Agree(TailsSlots(t, at, inFrom, EndsPoint(before)), registry)
  {
    hide Clear, Agree, WfExpr, PrintExpr, ExprSlots, EndsPoint, KeywordOf, Role, ExprDue;
    match t
    case NoTail => AgreeNone(registry);
    case Tail(keyword, body, more) =>
      var xs, ys := [keyword] + PrintExpr(body), PrintTails(more);
      var k := at + 1 + |PrintExpr(body)|;
      assert PrintTails(t) == xs + ys && PrintTails(t)[0] == keyword;
      NotHidden(before, PrintTails(t), registry);
      ClearParts(before, xs + ys, registry);
      ClearParts(xs, ys, registry);
      ClearParts([keyword], PrintExpr(body), registry);
      ExprAgrees(body, LIST, false, false, at + 1, registry);
      TailsAgree(more, k, xs, false, registry);
      AgreeTwo(ExprSlots(body, at + 1, false, false), TailsSlots(more, k, false, EndsPoint(xs)), registry);
  }

  lemma {:induction false} CoreAgrees(c: Core, inFrom: bool, due: bool, at: nat, registry: map<string, string>)
    requires WfCore(c, inFrom, due, false) && Clear(PrintCore(c), registry)
    ensures Agree(CoreSlots(c, at, inFrom, due), registry)
  {
    hide Clear, Agree, PrintExpr, PrintFrom, WfExpr, WfFrom, ExprSlots, FromSlots, KeywordOf, Role, PrintQuery,
      QuerySlots, WfQuery, ExprDue, EndsPoint, FromEnd, EndsTest, Before;
    match c
    case SelectCore(select, items, clause) =>
      var x, y := PrintExpr(items), PrintFrom(clause);
      ClearThree([select], x, y, registry);
      ExprAgrees(items, LIST, false, false, at + 1, registry);
      if clause.FromList? {
        FromLeads(clause, false, !EndsPoint(x));
        NotHidden(x, y, registry);
      }
      FromAgrees(clause, at + 1 + |x|, false, !EndsPoint(x), registry);
      AgreeTwo(ExprSlots(items, at + 1, false, false), FromSlots(clause, at + 1 + |x|, false, !EndsPoint(x)), registry);
    case FromCore(clause, picked) =>
      var x, y := PrintFrom(clause), PrintPicked(picked);
      ClearParts(x, y, registry);
      FromAgrees(clause, at, inFrom, true, registry);
      PickedAgrees(picked, at + |x|, x, CoreEnd(c, inFrom, due), registry);
      AgreeTwo(FromSlots(clause, at, inFrom, true), PickedSlots(picked, at + |x|, CoreEnd(c, inFrom, due)), registry);
    case ValuesCore(values, rows) =>
      ClearParts([values], PrintExpr(rows), registry);
      ExprAgrees(rows, RowsSpot(inFrom && !due, false), inFrom && !due, false, at + 1, registry);
    case PivotCore(pivot, relations) =>
      ClearParts([pivot], PrintRelations(relations), registry);
      RelationsAgree(relations, at + 1, registry);
    case ParenCore(open, query, close) =>
      ClearThree([open], PrintQuery(query), [close], registry);
      QueryAgrees(query, due, due, at + 1, registry);
  }

  lemma FromLeads(f: FromClause, inFrom: bool, seen: bool)
    requires f.FromList? && WfFrom(f, inFrom, seen, false)
    ensures PrintFrom(f) != [] && CanHide(PrintFrom(f)[0])
  {
    hide KeywordOf, Role, PrintRelations, WfRelations;
  }

  lemma {:induction false} PickedAgrees(p: Picked, at: nat, before: seq<Atom>, kept: bool, registry: map<string, string>)
    requires p.Pick? ==> Before(p.select, Select, PrintExpr(p.items)) && (kept ==> EndsPoint(before))
    requires p.Pick? ==> WfExpr(p.items, ListSpot(EndsPoint(before)), kept, false, false)
    requires Clear(before + PrintPicked(p), registry)
    ensures Agree(PickedSlots(p, at, kept), registry)
  {
    hide Clear, Agree, WfExpr, PrintExpr, ExprSlots, EndsPoint, KeywordOf, Role, ExprDue;
    match p
    case NoPick => AgreeNone(registry);
    case Pick(select, items) =>
      assert PrintPicked(p)[0] == select;
      NotHidden(before, PrintPicked(p), registry);
      ClearParts(before, PrintPicked(p), registry);
      ClearParts([select], PrintExpr(items), registry);
      ExprAgrees(items, LIST, false, false, at + 1, registry);
  }

  lemma {:induction false} TermAgrees(t: Term, inFrom: bool, due: bool, at: nat, registry: map<string, string>)
    requires WfTerm(t, inFrom, due, false) && Clear(PrintTerm(t), registry)
    ensures Agree(TermSlots(t, at, inFrom, due), registry)
  {
    hide Clear, Agree, EndsPoint, PrintCore, PrintTails, WfCore, WfTails, CoreSlots, TailsSlots, CoreEnd;
    var x, kept := PrintCore(t.core), CoreEnd(t.core, inFrom, due);
    ClearParts(x, PrintTails(t.tails), registry);
    CoreAgrees(t.core, inFrom, due, at, registry);
    TailsAgree(t.tails, at + |x|, x, kept, registry);
    AgreeTwo(CoreSlots(t.core, at, inFrom, due), TailsSlots(t.tails, at + |x|, kept, EndsPoint(x)), registry);
  }

  lemma {:induction false} QueryAgrees(q: Query, inFrom: bool, due: bool, at: nat, registry: map<string, string>)
    requires WfQuery(q, inFrom, due, false) && Clear(PrintQuery(q), registry)
    ensures Agree(QuerySlots(q, at, inFrom, due), registry)
  {
    hide Clear, Agree, EndsPoint, PrintExpr, WfExpr, ExprSlots, KeywordOf, Role, WfTerm, PrintTerm, TermSlots,
      TermEnd, ExprDue, QuantifierOk;
    match q
    case Single(term) => TermAgrees(term, inFrom, due, at, registry);
    case Combined(term, op, quantifier, rest) =>
      var xs, zs := PrintTerm(term), PrintQuery(rest);
      assert PrintQuery(q) == xs + ([op] + (quantifier + zs));
      ClearParts(xs, [op] + (quantifier + zs), registry);
      NotHidden(xs, [op] + (quantifier + zs), registry);
      ClearParts([op], quantifier + zs, registry);
      ClearParts(quantifier, zs, registry);
      var k := at + |xs| + 1 + |quantifier|;
      TermAgrees(term, inFrom, due, at, registry);
      QueryAgrees(rest, false, false, k, registry);
      AgreeTwo(TermSlots(term, at, inFrom, due), QuerySlots(rest, k, false, false), registry);
    case WithQuery(with, ctes, body) =>
      var k := at + 1 + |PrintExpr(ctes)|;
      ClearThree([with], PrintExpr(ctes), PrintQuery(body), registry);
      ExprAgrees(ctes, CTES, inFrom, false, at + 1, registry);
      QueryAgrees(body, inFrom, false, k, registry);
      AgreeTwo(ExprSlots(ctes, at + 1, inFrom, false), QuerySlots(body, k, inFrom, false), registry);
  }

  /**
   * A clear query in which no bracketed value of a FROM list holds a comma, nor VALUES that the rewriter takes
   * for a FROM list: the rewriter replaces exactly the registered relations and leaves the columns alone.
   */
  lemma ClearRewrite(sql: string, q: Query, tail: seq<Atom>, registry: map<string, string>)
    requires WfQuery(q, false, false, false) && (tail == [] || (|tail| == 1 && IsSymbol(tail[0], ';')))
    requires AtomsOf(TokensOf(sql)) == PrintQuery(q) + tail && Clear(AtomsOf(TokensOf(sql)), registry)
    ensures
      var marks := Meant(QuerySlots(q, 0, false, false), registry);
      && Marks(AtomsOf(TokensOf(sql)), registry) == marks
      && (forall k | 0 <= k < |marks| :: marks[k].first + 4 < |TokensOf(sql)| && marks[k].name in registry)
      && EditsOk(sql, 0, EditsOf(TokensOf(sql), registry, marks))
      && Rewrite(sql, registry) == Substitute(sql, 0, EditsOf(TokensOf(sql), registry, marks))
  {
    hide TokensOf, QuerySlots, WfQuery, PrintQuery, Marks, AtomsOf, Taken, Meant, Clear, Rewrite;
    ClearParts(PrintQuery(q), tail, registry);
    QueryAgrees(q, false, false, 0, registry);
    GrammarExactIff(q, registry, tail, false);
    GrammarMarks(q, registry, tail, false);
    GrammarRewrite(sql, q, tail, registry, false);
  }
}
