/**
 * A grammar of queries, printed as token sequences: SELECT lists, FROM lists with commas, joins and their
 * conditions, derived tables, subqueries, VALUES, FROM-first queries, common table expressions, set operations.
 */
module QueryGrammar {
  import opened Text
  import opened SqlTokens
  import opened Rewriter

  // ---------------------------------------------------------------- the words of the grammar

  /** What a word is to a query, in upper or lower case; the rewriter takes it for the same. */
  function Role(word: string): (k: Keyword)
    ensures k == KeywordOf(word)
  {
    var u := Upper(word);
    if u == "SELECT" then Select
    else if u == "FROM" then From
    else if u == "JOIN" then Join
    else if u in {"PIVOT", "PIVOT_WIDER", "UNPIVOT"} then Pivot
    else if u == "USING" then Using
    else if u == "ON" then On
    else if u in {"UNION", "INTERSECT", "EXCEPT"} then SetOperator
    else if u == "VALUES" then Values
    else if u in {"WHERE", "GROUP", "HAVING", "ORDER", "LIMIT", "OFFSET", "FETCH", "QUALIFY", "WINDOW", "RETURNING"} then
      ClauseEnd
    else if u in {"LATERAL", "ONLY"} then Modifier
    else if u in {"DELETE", "MERGE"} then DeleteOrMerge
    else if u == "IS" then Is
    else if u == "NOT" then Not
    else if u == "DISTINCT" then Distinct
    else if u == "WITH" then With
    else Plain
  }

  predicate IsWord(a: Atom, k: Keyword)
    ensures IsWord(a, k) == IsKeyword(a, k)
  {
    a.kind == WordToken && Role(a.value) == k
  }

  /** Three names with two dots, none of them apart, and no dot that touches the last; the rewriter looks for the same. */
  predicate ThreePart(xs: seq<Atom>, i: nat)
    ensures ThreePart(xs, i) == IsExternalName(xs, i)
  {
    && i + 5 <= |xs|
    && (forall k | k in {i, i + 2, i + 4} :: xs[k].kind == WordToken || xs[k].kind == QuotedIdentifier)
    && (forall k | k in {i + 1, i + 3} :: xs[k].kind == SymbolToken && xs[k].value == ".")
    && (forall k | i <= k < i + 4 :: xs[k].glued)
    && (i + 5 < |xs| && xs[i + 5].kind == SymbolToken && xs[i + 5].value == "." ==> !xs[i + 4].glued)
  }

  function CatalogName(xs: seq<Atom>, i: nat): (name: string)
    requires i + 5 <= |xs|
    ensures name == ExternalName(xs, i)
  {
    xs[i].value + "." + xs[i + 2].value + "." + xs[i + 4].value
  }

  // ---------------------------------------------------------------- queries

  /** A query; the keyword and punctuation tokens are part of the tree so that any spacing can be printed. */
  datatype Query =
    | Single(term: Term)
    | Combined(term: Term, op: Atom, quantifier: seq<Atom>, rest: Query)
    | WithQuery(with: Atom, ctes: Expr, body: Query)

  datatype Term = Term(core: Core, tails: Tails)

  datatype Core =
    | SelectCore(select: Atom, items: Expr, clause: FromClause)
    | FromCore(clause: FromClause, picked: Picked)      // `FROM t`, `FROM t SELECT x`
    | ValuesCore(values: Atom, rows: Expr)
    | PivotCore(pivot: Atom, relations: Relations)      // `PIVOT t ON x USING sum(y)`
    | ParenCore(open: Atom, query: Query, close: Atom)

  datatype Picked = NoPick | Pick(select: Atom, items: Expr)

  datatype FromClause = NoFrom | FromList(from: Atom, relations: Relations)

  datatype Relations = Relations(relation: Relation, more: More)

  datatype More =
    | Done
    | Comma(comma: Atom, relations: Relations)
    | Joined(join: Atom, relation: Relation, more: More)

  /** A relation and what trails it: its alias, column list, join condition, sampling, words of the next join. */
  datatype Relation =
    | Named(modifiers: seq<Atom>, head: Atom, parts: seq<Part>, trail: Expr)
    | Derived(modifiers: seq<Atom>, open: Atom, query: Query, close: Atom, trail: Expr)
    | Nested(modifiers: seq<Atom>, open: Atom, relations: Relations, close: Atom, trail: Expr)

  datatype Part = Part(dot: Atom, name: Atom)

  /** Clauses after the FROM list: WHERE, GROUP BY, HAVING, ORDER BY, LIMIT and the like. */
  datatype Tails = NoTail | Tail(keyword: Atom, body: Expr, more: Tails)

  datatype Expr = Nil | Cons(item: Item, rest: Expr)

  datatype Item =
    | Leaf(atom: Atom)
    | Column(head: Atom, parts: seq<Part>)  // `t.x`, `t.*`
    | Decimal(whole: seq<Atom>, dot: Atom, fraction: seq<Atom>)  // `1.5`, `.5`, `1.`
    | Separator(comma: Atom)
    | DistinctTest(isWord: Atom, nots: seq<Atom>, distinct: Atom, from: Atom)
    | CallFrom(from: Atom)                  // the FROM of a call, behind other words of the call
    | ClauseWord(word: Atom)                // ORDER BY in a call, WHERE in a FILTER, WITHIN GROUP
    | Group(open: Atom, body: Expr, close: Atom, parts: seq<Part>)
    | Bracket(open: Atom, body: Expr, close: Atom, parts: seq<Part>)  // a list, a struct, an index
    | TrimFrom(trim: Atom, open: Atom, from: Atom, body: Expr, close: Atom)  // the call that begins with its FROM
    | Subquery(open: Atom, query: Query, close: Atom, parts: seq<Part>)

  // ---------------------------------------------------------------- printing

  function PrintParts(parts: seq<Part>): seq<Atom> {
    if parts == [] then [] else [parts[0].dot, parts[0].name] + PrintParts(parts[1..])
  }

  function PrintItem(item: Item): seq<Atom> {
    match item
    case Leaf(a) => [a]
    case Column(head, parts) => [head] + PrintParts(parts)
    case Decimal(whole, dot, fraction) => whole + [dot] + fraction
    case Separator(comma) => [comma]
    case DistinctTest(isWord, nots, distinct, from) => [isWord] + nots + [distinct, from]
    case CallFrom(from) => [from]
    case ClauseWord(word) => [word]
    case Group(open, body, close, parts) => Enclosed(open, PrintExpr(body), close) + PrintParts(parts)
    case Bracket(open, body, close, parts) => Enclosed(open, PrintExpr(body), close) + PrintParts(parts)
    case TrimFrom(trim, open, from, body, close) => [trim] + Enclosed(open, [from] + PrintExpr(body), close)
    case Subquery(open, query, close, parts) => Enclosed(open, PrintQuery(query), close) + PrintParts(parts)
  }

  function Enclosed(open: Atom, xs: seq<Atom>, close: Atom): (r: seq<Atom>)
    ensures |r| == |xs| + 2
  {
    [open] + xs + [close]
  }

  function PrintExpr(e: Expr): seq<Atom> {
    match e
    case Nil => []
    case Cons(item, rest) => PrintItem(item) + PrintExpr(rest)
  }

  /** A relation without its modifiers and without what trails it. */
  function PrintBody(r: Relation): seq<Atom>
    decreases r, 0
  {
    match r
    case Named(_, head, parts, _) => [head] + PrintParts(parts)
    case Derived(_, open, query, close, _) => Enclosed(open, PrintQuery(query), close)
    case Nested(_, open, relations, close, _) => Enclosed(open, PrintRelations(relations), close)
  }

  function PrintRelation(r: Relation): seq<Atom>
    decreases r, 1
  {
    r.modifiers + PrintBody(r) + PrintExpr(r.trail)
  }

  function PrintRelations(r: Relations): seq<Atom> {
    PrintRelation(r.relation) + PrintMore(r.more)
  }

  function PrintMore(m: More): seq<Atom> {
    match m
    case Done => []
    case Comma(comma, relations) => [comma] + PrintRelations(relations)
    case Joined(join, relation, more) => [join] + PrintRelation(relation) + PrintMore(more)
  }

  function PrintFrom(f: FromClause): seq<Atom> {
    match f
    case NoFrom => []
    case FromList(from, relations) => [from] + PrintRelations(relations)
  }

  function PrintPicked(p: Picked): seq<Atom> {
    match p
    case NoPick => []
    case Pick(select, items) => [select] + PrintExpr(items)
  }

  function PrintTails(t: Tails): seq<Atom> {
    match t
    case NoTail => []
    case Tail(keyword, body, more) => [keyword] + PrintExpr(body) + PrintTails(more)
  }

  function PrintCore(c: Core): seq<Atom> {
    match c
    case SelectCore(select, items, clause) => [select] + PrintExpr(items) + PrintFrom(clause)
    case FromCore(clause, picked) => PrintFrom(clause) + PrintPicked(picked)
    case ValuesCore(values, rows) => [values] + PrintExpr(rows)
    case PivotCore(pivot, relations) => [pivot] + PrintRelations(relations)
    case ParenCore(open, query, close) => Enclosed(open, PrintQuery(query), close)
  }

  function PrintTerm(t: Term): seq<Atom> { PrintCore(t.core) + PrintTails(t.tails) }

  function PrintQuery(q: Query): seq<Atom> {
    match q
    case Single(term) => PrintTerm(term)
    case Combined(term, op, quantifier, rest) => PrintTerm(term) + [op] + quantifier + PrintQuery(rest)
    case WithQuery(with, ctes, body) => [with] + PrintExpr(ctes) + PrintQuery(body)
  }

  // ---------------------------------------------------------------- tokens

  /** Words without a role of their own in the grammar. */
  predicate IsOrdinary(a: Atom) {
    a.kind == WordToken && Role(a.value) in {Plain, Is, Not, Distinct, With, Modifier, On, Using}
  }

  predicate IsOneOf(a: Atom, s: string) { a.kind == SymbolToken && |a.value| == 1 && a.value[0] in s }

  predicate IsOperator(a: Atom) { a.kind == SymbolToken && !IsOneOf(a, "()[]{},;.") }

  predicate IsLeaf(a: Atom) {
    IsOrdinary(a) || a.kind == QuotedIdentifier || a.kind == LiteralToken || IsOperator(a)
  }

  predicate IsDigit(c: char) { '0' <= c <= '9' }

  /** A word that begins with a digit: a number without its point. */
  predicate IsNumber(a: Atom) { IsWord(a, Plain) && a.value != "" && IsDigit(a.value[0]) }

  /** The exponent of a number, behind its point. */
  predicate IsExponent(a: Atom) {
    IsWord(a, Plain) && a.value != "" && a.value[0] in "eE" && (|a.value| > 1 ==> IsDigit(a.value[1]))
  }

  /** What can begin a column name, or a relation name that is no three-part name. */
  predicate IsHead(a: Atom) {
    (IsOrdinary(a) && !IsWord(a, Modifier) && !IsNumber(a)) || a.kind == QuotedIdentifier
  }

  predicate IsTrim(a: Atom) { IsWord(a, Plain) && Upper(a.value) == "TRIM" }

  predicate IsPair(open: Atom, close: Atom) {
    (IsSymbol(open, '[') && IsSymbol(close, ']')) || (IsSymbol(open, '{') && IsSymbol(close, '}'))
  }

  predicate PartsOk(parts: seq<Part>) {
    forall p | p in parts :: IsSymbol(p.dot, '.') && (IsName(p.name) || IsSymbol(p.name, '*'))
  }

  predicate ModifiersOk(modifiers: seq<Atom>) { forall m | m in modifiers :: IsWord(m, Modifier) }

  /** ALL, DISTINCT, BY NAME. */
  predicate QuantifierOk(words: seq<Atom>) {
    (forall w | w in words :: IsOrdinary(w)) && !EndsTest(words)
  }

  predicate Starts(xs: seq<Atom>, c: char) { xs != [] && IsSymbol(xs[0], c) }

  /** The last token is a dot: the rewriter takes a keyword behind it for a part of a name. */
  predicate EndsPoint(xs: seq<Atom>) { xs != [] && IsSymbol(xs[|xs| - 1], '.') }

  predicate EndsName(xs: seq<Atom>) { EndsPoint(xs) || (xs != [] && IsName(xs[|xs| - 1])) }

  /** IS DISTINCT or IS NOT DISTINCT comes last: a FROM behind it belongs to the comparison. */
  predicate EndsTest(xs: seq<Atom>) {
    var n := |xs|;
    && n >= 2 && IsWord(xs[n - 1], Distinct)
    && (IsWord(xs[n - 2], Is) || (n >= 3 && IsWord(xs[n - 2], Not) && IsWord(xs[n - 3], Is)))
  }

  /** The first word lets the rewriter accept a FROM without a SELECT. */
  predicate StartsFrom(xs: seq<Atom>) { xs != [] && (IsWord(xs[0], From) || IsWord(xs[0], With)) }

  // ---------------------------------------------------------------- the flags of the rewriter

  /** Whether the rewriter expects a relation behind an item: `inFrom` and `due` say how it comes to it. */
  function ItemDue(item: Item, inFrom: bool, due: bool): bool {
    match item
    case Leaf(a) => due && (a.kind == SymbolToken || IsWord(a, Modifier))
    case Separator(_) => inFrom || due
    case CallFrom(_) => due
    case Bracket(_, body, _, parts) => ExprDue(body, inFrom, due) && parts == []
    case _ => false
  }

  function ExprDue(e: Expr, inFrom: bool, due: bool): bool {
    match e
    case Nil => due
    case Cons(item, rest) => ExprDue(rest, inFrom, ItemDue(item, inFrom, due))
  }

  /** Whether the rewriter is in a FROM list at the end of the relations; `dotted`: a dot stands before. */
  function MoreEnd(m: More, inFrom: bool, dotted: bool): bool {
    match m
    case Done => inFrom
    case Comma(_, relations) => RelationsEnd(relations, inFrom)
    case Joined(_, relation, more) => MoreEnd(more, inFrom || !dotted, EndsPoint(PrintRelation(relation)))
  }

  function RelationsEnd(r: Relations, inFrom: bool): bool {
    MoreEnd(r.more, inFrom, EndsPoint(PrintRelation(r.relation)))
  }

  /** `seen`: the rewriter takes the FROM for one. */
  function FromEnd(f: FromClause, inFrom: bool, seen: bool): bool {
    match f
    case NoFrom => inFrom
    case FromList(_, relations) => RelationsEnd(relations, inFrom || seen)
  }

  /** A SELECT behind a dot is not seen: the FROM list goes on. */
  function PickedEnd(p: Picked, inFrom: bool, dotted: bool): bool { if p.NoPick? then inFrom else inFrom && dotted }

  function CoreEnd(c: Core, inFrom: bool, due: bool): bool {
    match c
    case SelectCore(_, items, clause) => FromEnd(clause, false, !EndsPoint(PrintExpr(items)))
    case FromCore(clause, picked) => PickedEnd(picked, FromEnd(clause, inFrom, true), EndsPoint(PrintFrom(clause)))
    case ValuesCore(_, _) => inFrom && !due
    case PivotCore(_, relations) => RelationsEnd(relations, true)
    case ParenCore(_, _, _) => inFrom
  }

  /** A clause word behind a dot is not seen: the FROM list goes on. */
  function TailsEnd(t: Tails, inFrom: bool, dotted: bool): bool {
    match t
    case NoTail => inFrom
    case Tail(keyword, body, more) => TailsEnd(more, inFrom && dotted, EndsPoint([keyword] + PrintExpr(body)))
  }

  function TermEnd(t: Term, inFrom: bool, due: bool): bool {
    TailsEnd(t.tails, CoreEnd(t.core, inFrom, due), EndsPoint(PrintCore(t.core)))
  }

  // ---------------------------------------------------------------- well-formedness

  /**
   * What may occur in an expression: commas, each before a single name or not; a call's own FROM; clause words.
   * `target`: before the USING of a DELETE or MERGE, which is none of the expression's own words.
   */
  datatype Spot = Spot(commas: bool, names: bool, calls: bool, clauses: bool, target: bool)

  /** What trails a relation. */
  const QUIET := Spot(false, false, false, false, false)

  /** A list, and the clauses in which the rewriter overlooks the clause word. */
  const PLAIN_LIST := Spot(true, false, false, false, false)

  /** A select list, or the body of a clause. */
  const LIST := Spot(true, false, false, true, false)

  /** Common table expressions. */
  const CTES := Spot(true, true, false, false, false)

  /** What stands between DELETE or MERGE and its USING. */
  const TARGET := Spot(false, false, false, false, true)

  function GroupSpot(body: seq<Atom>, due: bool): Spot {
    var call := !due && !StartsFrom(body);
    Spot(true, false, call, call, false)
  }

  /** `lists`: a bracketed value in a FROM list may hold commas, and so may VALUES that the rewriter takes for one. */
  function BracketSpot(spot: Spot, inFrom: bool, lists: bool): Spot {
    Spot(lists || !inFrom, false, false, spot.clauses, spot.target)
  }

  function RowsSpot(inFrom: bool, lists: bool): Spot { Spot(lists || !inFrom, false, false, false, false) }

  predicate StartsName(e: Expr) { e.Cons? && e.item.Leaf? && IsHead(e.item.atom) }

  predicate StartsFromQuery(e: Expr) {
    e.Cons? && e.item.Subquery? && var xs := PrintQuery(e.item.query); xs != [] && IsWord(xs[0], From)
  }

  /** No point stands directly behind a name; a query that begins with FROM is no argument of `trim`. */
  predicate MayFollow(item: Item, rest: Expr, spot: Spot) {
    && (Starts(PrintExpr(rest), '.') ==> !EndsName(PrintItem(item)))
    && (item.Leaf? && IsTrim(item.atom) ==> !StartsFromQuery(rest))
    && (item.Separator? && spot.names ==> StartsName(rest))
  }

  predicate DecimalOk(whole: seq<Atom>, dot: Atom, fraction: seq<Atom>, due: bool) {
    && |whole| <= 1 && |fraction| <= 1 && IsSymbol(dot, '.') && (whole != [] || fraction != [])
    && (forall a | a in whole :: IsNumber(a))
    && (forall a | a in fraction :: IsNumber(a) || (whole != [] && IsExponent(a)))
    && (due && fraction == [] ==> !dot.glued)
  }

  /** The PIVOT behind a relation is a word like any other. */
  predicate LeafOk(a: Atom, inFrom: bool, due: bool) { IsLeaf(a) || (IsWord(a, Pivot) && inFrom && !due) }

  predicate WfItem(item: Item, spot: Spot, inFrom: bool, due: bool, lists: bool) {
    match item
    case Leaf(a) => LeafOk(a, inFrom, due) && (spot.target ==> !IsWord(a, Using))
    case Column(head, parts) => IsHead(head) && parts != [] && PartsOk(parts) && (spot.target ==> !IsWord(head, Using))
    case Decimal(whole, dot, fraction) => DecimalOk(whole, dot, fraction, due)
    case Separator(comma) => spot.commas && IsSymbol(comma, ',')
    case DistinctTest(isWord, nots, distinct, from) =>
      && IsWord(isWord, Is) && (nots == [] || (|nots| == 1 && IsWord(nots[0], Not)))
      && IsWord(distinct, Distinct) && IsWord(from, From)
    case CallFrom(from) => spot.calls && IsWord(from, From)
    case ClauseWord(word) => spot.clauses && IsWord(word, ClauseEnd)
    case Group(open, body, close, parts) =>
      && IsSymbol(open, '(') && IsSymbol(close, ')') && PartsOk(parts)
      && WfExpr(body, GroupSpot(PrintExpr(body), due), due, due, lists)
    case Bracket(open, body, close, parts) =>
      && IsPair(open, close) && PartsOk(parts) && (parts != [] ==> !ExprDue(body, inFrom, due))
      && WfExpr(body, BracketSpot(spot, inFrom, lists), inFrom, due, lists)
    case TrimFrom(trim, open, from, body, close) =>
      && IsTrim(trim) && IsSymbol(open, '(') && IsWord(from, From) && IsSymbol(close, ')')
      && WfExpr(body, PLAIN_LIST, true, true, lists)
    case Subquery(open, query, close, parts) =>
      IsSymbol(open, '(') && IsSymbol(close, ')') && PartsOk(parts) && WfQuery(query, due, due, lists)
  }

  predicate WfExpr(e: Expr, spot: Spot, inFrom: bool, due: bool, lists: bool) {
    match e
    case Nil => true
    case Cons(item, rest) =>
      && WfItem(item, spot, inFrom, due, lists) && MayFollow(item, rest, spot)
      && WfExpr(rest, spot, inFrom, ItemDue(item, inFrom, due), lists)
  }

  /** `code`: the rewriter expects a relation here. Only then can a name begin with any keyword. */
  predicate WfBody(r: Relation, code: bool, lists: bool)
    decreases r, 0
  {
    match r
    case Named(_, head, parts, trail) =>
      && PartsOk(parts)
      && (IsHead(head) || (head.kind == LiteralToken && parts == [])
          || (code && ThreePart([head] + PrintParts(parts), 0)))
      && (IsTrim(head) && parts == [] ==> !StartsFromQuery(trail))
    case Derived(_, open, query, close, _) =>
      IsSymbol(open, '(') && IsSymbol(close, ')') && WfQuery(query, code, code, lists)
    case Nested(_, open, relations, close, _) =>
      IsSymbol(open, '(') && IsSymbol(close, ')') && WfRelations(relations, code, code, lists)
  }

  predicate WfRelation(r: Relation, inFrom: bool, code: bool, lists: bool)
    decreases r, 1
  {
    && ModifiersOk(r.modifiers) && WfBody(r, code, lists)
    && WfExpr(r.trail, QUIET, inFrom, false, lists) && !Starts(PrintExpr(r.trail), '.')
  }

  /** `inFrom`: the rewriter expects a relation after a comma here. */
  predicate WfRelations(r: Relations, inFrom: bool, code: bool, lists: bool) {
    WfRelation(r.relation, inFrom, code, lists) && WfMore(r.more, inFrom, EndsPoint(PrintRelation(r.relation)), lists)
  }

  /** `dotted`: the token before is a dot, so that a JOIN here is not seen. */
  predicate WfMore(m: More, inFrom: bool, dotted: bool, lists: bool) {
    match m
    case Done => true
    case Comma(comma, relations) => IsSymbol(comma, ',') && WfRelations(relations, inFrom, inFrom, lists)
    case Joined(join, relation, more) =>
      && IsWord(join, Join) && WfRelation(relation, inFrom || !dotted, !dotted, lists)
      && WfMore(more, inFrom || !dotted, EndsPoint(PrintRelation(relation)), lists)
  }

  /** `seen`: the rewriter takes the FROM for one. */
  predicate WfFrom(f: FromClause, inFrom: bool, seen: bool, lists: bool) {
    f.FromList? ==> IsWord(f.from, From) && WfRelations(f.relations, inFrom || seen, seen, lists)
  }

  predicate WfTails(t: Tails, inFrom: bool, dotted: bool, lists: bool) {
    match t
    case NoTail => true
    case Tail(keyword, body, more) =>
      && Before(keyword, ClauseEnd, PrintExpr(body))
      && WfExpr(body, ListSpot(dotted), inFrom && dotted, false, lists)
      && WfTails(more, inFrom && dotted, EndsPoint([keyword] + PrintExpr(body)), lists)
  }

  /** A keyword before an expression: no point touches it. */
  predicate Before(keyword: Atom, k: Keyword, xs: seq<Atom>) {
    IsWord(keyword, k) && (Starts(xs, '.') ==> !keyword.glued)
  }

  /** The spot of a list behind a keyword; `hidden`: the rewriter does not see the keyword. */
  function ListSpot(hidden: bool): Spot { if hidden then PLAIN_LIST else LIST }

  predicate WfCore(c: Core, inFrom: bool, due: bool, lists: bool) {
    match c
    case SelectCore(select, items, clause) =>
      && Before(select, Select, PrintExpr(items)) && WfExpr(items, LIST, false, false, lists)
      && !EndsTest(PrintExpr(items))
      && WfFrom(clause, false, !EndsPoint(PrintExpr(items)), lists)
    case FromCore(clause, picked) =>
      && clause.FromList? && WfFrom(clause, inFrom, true, lists)
      && (picked.Pick? ==>
            && Before(picked.select, Select, PrintExpr(picked.items))
            && var dotted := EndsPoint(PrintFrom(clause));
               WfExpr(picked.items, ListSpot(dotted), CoreEnd(c, inFrom, due), false, lists))
    case ValuesCore(values, rows) =>
      && IsWord(values, Values) && !Starts(PrintExpr(rows), '.')
      && WfExpr(rows, RowsSpot(inFrom && !due, lists), inFrom && !due, false, lists)
    case PivotCore(pivot, relations) =>
      IsWord(pivot, Pivot) && (inFrom ==> due) && WfRelations(relations, true, true, lists)
    case ParenCore(open, query, close) =>
      IsSymbol(open, '(') && IsSymbol(close, ')') && WfQuery(query, due, due, lists)
  }

  predicate WfTerm(t: Term, inFrom: bool, due: bool, lists: bool) {
    && WfCore(t.core, inFrom, due, lists)
    && WfTails(t.tails, CoreEnd(t.core, inFrom, due), EndsPoint(PrintCore(t.core)), lists)
  }

  /** The query begins, behind its common table expressions, with a FROM. */
  predicate FromFirst(q: Query) {
    match q
    case Single(term) => term.core.FromCore?
    case Combined(term, _, _, _) => term.core.FromCore?
    case WithQuery(_, _, body) => FromFirst(body)
  }

  /** The query begins, behind its common table expressions, with a PIVOT. */
  predicate PivotFirst(q: Query) {
    match q
    case Single(term) => term.core.PivotCore?
    case Combined(term, _, _, _) => term.core.PivotCore?
    case WithQuery(_, _, body) => PivotFirst(body)
  }

  /** `inFrom` and `due` are the rewriter's flags at the start of the query. */
  predicate WfQuery(q: Query, inFrom: bool, due: bool, lists: bool) {
    match q
    case Single(term) => WfTerm(term, inFrom, due, lists)
    case Combined(term, op, quantifier, rest) =>
      var dotted := EndsPoint(PrintTerm(term));
      && WfTerm(term, inFrom, due, lists) && IsWord(op, SetOperator) && QuantifierOk(quantifier)
      && (dotted ==> !FromFirst(rest) && !PivotFirst(rest)) && WfQuery(rest, dotted && TermEnd(term, inFrom, due), false, lists)
    case WithQuery(with, ctes, body) =>
      var xs := PrintExpr(ctes);
      && IsWord(with, With) && WfExpr(ctes, CTES, inFrom, false, lists) && !Starts(xs, '.')
      && xs != [] && IsSymbol(xs[|xs| - 1], ')') && !ExprDue(ctes, inFrom, false)
      && WfQuery(body, inFrom, false, lists)
  }

  // ---------------------------------------------------------------- the three-part names of a query

  /**
   * A three-part name, with the index of its first token. `code`: the rewriter expects a relation there;
   * `meant`: it is one.
   */
  datatype Slot = Slot(first: nat, name: string, code: bool, meant: bool)

  function NameSlots(xs: seq<Atom>, at: nat, code: bool, meant: bool): seq<Slot> {
    if ThreePart(xs, 0) then [Slot(at, CatalogName(xs, 0), code, meant)] else []
  }

  function ItemSlots(item: Item, at: nat, inFrom: bool, due: bool): seq<Slot> {
    match item
    case Column(_, _) => NameSlots(PrintItem(item), at, due, false)
    case Group(_, body, _, _) => ExprSlots(body, at + 1, due, due)
    case Bracket(_, body, _, _) => ExprSlots(body, at + 1, inFrom, due)
    case TrimFrom(_, _, _, body, _) => ExprSlots(body, at + 3, true, true)
    case Subquery(_, query, _, _) => QuerySlots(query, at + 1, due, due)
    case _ => []
  }

  function ExprSlots(e: Expr, at: nat, inFrom: bool, due: bool): seq<Slot> {
    match e
    case Nil => []
    case Cons(item, rest) =>
      ItemSlots(item, at, inFrom, due)
      + ExprSlots(rest, at + |PrintItem(item)|, inFrom, ItemDue(item, inFrom, due))
  }

  /** A name called as a function, or with a fourth part, is no relation of the catalog. */
  predicate IsTableName(r: Relation) { r.Named? && |r.parts| == 2 && !Starts(PrintExpr(r.trail), '(') }

  function BodySlots(r: Relation, at: nat, code: bool, meant: bool): seq<Slot>
    decreases r, 0
  {
    match r
    case Named(_, _, _, _) => NameSlots(PrintBody(r), at, code, meant && IsTableName(r))
    case Derived(_, _, query, _, _) => QuerySlots(query, at + 1, code, code)
    case Nested(_, _, relations, _, _) => RelationsSlots(relations, at + 1, code, code, meant)
  }

  function RelationSlots(r: Relation, at: nat, inFrom: bool, code: bool, meant: bool): seq<Slot>
    decreases r, 1
  {
    var first := at + |r.modifiers|;
    BodySlots(r, first, code, meant) + ExprSlots(r.trail, first + |PrintBody(r)|, inFrom, false)
  }

  function RelationsSlots(r: Relations, at: nat, inFrom: bool, code: bool, meant: bool): seq<Slot> {
    RelationSlots(r.relation, at, inFrom, code, meant)
    + MoreSlots(r.more, at + |PrintRelation(r.relation)|, inFrom, EndsPoint(PrintRelation(r.relation)), meant)
  }

  /** A JOIN opens a relation unless a dot stands before it; a comma does within a FROM list. */
  function MoreSlots(m: More, at: nat, inFrom: bool, dotted: bool, meant: bool): seq<Slot> {
    match m
    case Done => []
    case Comma(_, relations) => RelationsSlots(relations, at + 1, inFrom, inFrom, meant)
    case Joined(_, relation, more) =>
      RelationSlots(relation, at + 1, inFrom || !dotted, !dotted, meant)
      + MoreSlots(more, at + 1 + |PrintRelation(relation)|, inFrom || !dotted, EndsPoint(PrintRelation(relation)), meant)
  }

  function FromSlots(f: FromClause, at: nat, inFrom: bool, seen: bool): seq<Slot> {
    match f
    case NoFrom => []
    case FromList(_, relations) => RelationsSlots(relations, at + 1, inFrom || seen, seen, true)
  }

  function PickedSlots(p: Picked, at: nat, kept: bool): seq<Slot> {
    match p
    case NoPick => []
    case Pick(_, items) => ExprSlots(items, at + 1, kept, false)
  }

  function TailsSlots(t: Tails, at: nat, inFrom: bool, dotted: bool): seq<Slot> {
    match t
    case NoTail => []
    case Tail(keyword, body, more) =>
      ExprSlots(body, at + 1, inFrom && dotted, false)
      + TailsSlots(more, at + 1 + |PrintExpr(body)|, inFrom && dotted, EndsPoint([keyword] + PrintExpr(body)))
  }

  function CoreSlots(c: Core, at: nat, inFrom: bool, due: bool): seq<Slot> {
    match c
    case SelectCore(_, items, clause) =>
      ExprSlots(items, at + 1, false, false)
      + FromSlots(clause, at + 1 + |PrintExpr(items)|, false, !EndsPoint(PrintExpr(items)))
    case FromCore(clause, picked) =>
      FromSlots(clause, at, inFrom, true) + PickedSlots(picked, at + |PrintFrom(clause)|, CoreEnd(c, inFrom, due))
    case ValuesCore(_, rows) => ExprSlots(rows, at + 1, inFrom && !due, false)
    case PivotCore(_, relations) => RelationsSlots(relations, at + 1, true, true, true)
    case ParenCore(_, query, _) => QuerySlots(query, at + 1, due, due)
  }

  function TermSlots(t: Term, at: nat, inFrom: bool, due: bool): seq<Slot> {
    CoreSlots(t.core, at, inFrom, due)
    + TailsSlots(t.tails, at + |PrintCore(t.core)|, CoreEnd(t.core, inFrom, due), EndsPoint(PrintCore(t.core)))
  }

  function QuerySlots(q: Query, at: nat, inFrom: bool, due: bool): seq<Slot> {
    match q
    case Single(term) => TermSlots(term, at, inFrom, due)
    case Combined(term, op, quantifier, rest) =>
      TermSlots(term, at, inFrom, due)
      + QuerySlots(rest, at + |PrintTerm(term)| + 1 + |quantifier|,
                   EndsPoint(PrintTerm(term)) && TermEnd(term, inFrom, due), false)
    case WithQuery(_, ctes, body) =>
      ExprSlots(ctes, at + 1, inFrom, false) + QuerySlots(body, at + 1 + |PrintExpr(ctes)|, inFrom, false)
  }

  // ---------------------------------------------------------------- the marks

  predicate IsTaken(s: Slot, registry: map<string, string>) { s.code && s.name in registry }

  predicate IsMeant(s: Slot, registry: map<string, string>) { s.meant && s.name in registry }

  /** The registered names the rewriter takes for relations. */
  function Taken(slots: seq<Slot>, registry: map<string, string>): seq<Mark> {
    if slots == [] then []
    else (if IsTaken(slots[0], registry) then [Mark(slots[0].first, slots[0].name)] else []) + Taken(slots[1..], registry)
  }

  /** The registered names that are relations. */
  function Meant(slots: seq<Slot>, registry: map<string, string>): seq<Mark> {
    if slots == [] then []
    else (if IsMeant(slots[0], registry) then [Mark(slots[0].first, slots[0].name)] else []) + Meant(slots[1..], registry)
  }
}
