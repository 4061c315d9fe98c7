/** Saved queries: display names kept apart, and the loop that finds a free one. */
module SavedQueries {
  import opened Text

  // ---------------------------------------------------------------- state

  /** A stored query: its `id` field, its display name, and every other field as text. */
  datatype Query = Query(id: string, name: Option<string>, fields: map<string, string>)

  type Store = map<string, Query>

  datatype Event =
    | Create(newId: string, payload: map<string, string>, autoResolve: bool)
    | Update(id: string, mask: Option<seq<string>>, payload: map<string, string>, autoResolve: bool)
    | Delete(id: string)
    | LegacyUpdate(id: string, rename: Option<Option<string>>, fields: map<string, string>)

  datatype Response = Done | NotFound | NameTaken | MaskRequired | UnknownField

  const UPDATABLE: set<string> := {
    "display_name", "description", "query_text", "catalog", "schema", "warehouse_id", "tags",
    "apply_auto_limit", "run_as_mode", "owner_user_name"
  }

  // ---------------------------------------------------------------- names

  /** Another query than `exclude` holds the name; the `id` field is what is compared with `exclude`. */
  predicate Taken(qs: Store, name: string, exclude: Option<string>) {
    name != "" && exists k :: k in qs && qs[k].name == Some(name) && Some(qs[k].id) != exclude
  }

  /** `f"{base} ({n})"`. */
  function Suffixed(base: string, n: nat): string { base + " (" + Digits(n) + ")" }

  lemma SuffixedDistinct(base: string, m: nat, n: nat)
    ensures Suffixed(base, m) != base && Suffixed(base, m) != ""
    ensures Suffixed(base, m) == Suffixed(base, n) ==> m == n
  {
    var a, b := Suffixed(base, m), Suffixed(base, n);
    assert a[|base| + 2..|a| - 1] == Digits(m) && b[|base| + 2..|b| - 1] == Digits(n);
    assert |a| > |base|;
    if a == b {
      DigitsInjective(m, n);
    }
    hide Digits;
  }

  /** The base name and its first `n` suffixed forms. */
  function Candidates(base: string, n: nat): set<string> {
    if n == 0 then {base} else Candidates(base, n - 1) + {Suffixed(base, n)}
  }

  lemma {:induction false} CandidatesMany(base: string, n: nat)
    ensures |Candidates(base, n)| == n + 1
    ensures forall k | n < k :: Suffixed(base, k) !in Candidates(base, n)
  {
    hide Suffixed;
    if n > 0 {
      CandidatesMany(base, n - 1);
      SuffixedDistinct(base, n, n);
    } else {
      forall k: nat | n < k ensures Suffixed(base, k) != base { SuffixedDistinct(base, k, k); }
    }
    forall k | n < k ensures Suffixed(base, k) !in Candidates(base, n) {
      SuffixedDistinct(base, n, k);
      SuffixedDistinct(base, k, n);
    }
  }

  function NamesOf(qs: Store): set<string> { set k | k in qs && qs[k].name.Some? :: qs[k].name.value }

  /** A store holds no more names than queries. */
  lemma {:induction false} NamesFew(qs: Store)
    ensures |NamesOf(qs)| <= |qs|
    decreases |qs|
  {
    if qs != map[] {
      var k :| k in qs;
      var rest := qs - {k};
      NamesFew(rest);
      assert |rest| < |qs|;
      if qs[k].name.Some? {
        NamesWithout(qs, k);
        SubsetSize(NamesOf(qs), NamesOf(rest) + {qs[k].name.value});
      } else {
        NamesWithout(qs, k);
        SubsetSize(NamesOf(qs), NamesOf(rest));
      }
    }
  }

  lemma NamesWithout(qs: Store, k: string)
    requires k in qs
    ensures NamesOf(qs) <= NamesOf(qs - {k}) + (if qs[k].name.Some? then {qs[k].name.value} else {})
  {
    var rest := qs - {k};
    forall n | n in NamesOf(qs)
      ensures n in NamesOf(rest) || (qs[k].name == Some(n))
    {
      var j :| j in qs && qs[j].name.Some? && qs[j].name.value == n;
      assert j != k ==> j in rest && rest[j].name.value == n;
    }
  }

  lemma {:induction false} SubsetSize<T>(a: set<T>, b: set<T>)
    requires a <= b
    ensures |a| <= |b|
    decreases a
  {
    if a != {} {
      var x :| x in a;
      SubsetSize(a - {x}, b - {x});
    }
  }

  /** Pigeonhole: when the base and the suffixes below `n` are all taken, there are at least `n` queries. */
  lemma AllTakenBound(qs: Store, base: string, exclude: Option<string>, n: nat)
    requires n >= 1 && Taken(qs, base, exclude)
    requires forall k: nat | 1 <= k < n :: Taken(qs, Suffixed(base, k), exclude)
    ensures n <= |qs|
  {
    CandidatesMany(base, n - 1);
    NamesFew(qs);
    CandidatesTaken(qs, base, exclude, n - 1);
    SubsetSize(Candidates(base, n - 1), NamesOf(qs));
  }

  lemma {:induction false} CandidatesTaken(qs: Store, base: string, exclude: Option<string>, n: nat)
    requires Taken(qs, base, exclude) && forall k: nat | 1 <= k <= n :: Taken(qs, Suffixed(base, k), exclude)
    ensures Candidates(base, n) <= NamesOf(qs)
  {
    if n > 0 {
      CandidatesTaken(qs, base, exclude, n - 1);
      assert Taken(qs, Suffixed(base, n), exclude);
    }
  }

  /** The first free suffix from `n` on, all those before being taken. */
  ghost function FreeFrom(qs: Store, base: string, exclude: Option<string>, n: nat): (m: nat)
    requires n >= 1 && Taken(qs, base, exclude)
    requires forall k: nat | 1 <= k < n :: Taken(qs, Suffixed(base, k), exclude)
    ensures n <= m <= |qs| && !Taken(qs, Suffixed(base, m), exclude)
    ensures forall k: nat | 1 <= k < m :: Taken(qs, Suffixed(base, k), exclude)
    decreases |qs| + 1 - n
  {
    AllTakenBound(qs, base, exclude, n);
    if !Taken(qs, Suffixed(base, n), exclude) then n
    else
      AllTakenBound(qs, base, exclude, n + 1);
      FreeFrom(qs, base, exclude, n + 1)
  }

  /** The name the loop finds. */
  ghost function Resolved(qs: Store, name: Option<string>, exclude: Option<string>): string {
    var base := if name.Some? && name.value != "" then name.value else "New query";
    if !Taken(qs, base, exclude) then base else Suffixed(base, FreeFrom(qs, base, exclude, 1))
  }

  /** `r` is the base with its least free suffix, and that suffix is no larger than the store. */
  ghost predicate LeastSuffix(qs: Store, base: string, exclude: Option<string>, r: string) {
    exists n: nat ::
      && 1 <= n <= |qs| && r == Suffixed(base, n) && !Taken(qs, r, exclude)
      && (forall k: nat | 1 <= k < n :: Taken(qs, Suffixed(base, k), exclude))
  }

  /**
   * The free name found: the base itself if it is free, else the base with the least free suffix,
   * which is at most the number of stored queries.
   */
  method ResolveDisplayName(qs: Store, name: Option<string>, exclude: Option<string>) returns (r: string)
    ensures !Taken(qs, r, exclude) && r != "" && r == Resolved(qs, name, exclude)
    ensures var base := if name.Some? && name.value != "" then name.value else "New query";
      if !Taken(qs, base, exclude) then r == base
      else LeastSuffix(qs, base, exclude, r)
  {
    hide Taken, Suffixed;
    var base := if name.Some? && name.value != "" then name.value else "New query";
    if !Taken(qs, base, exclude) {
      return base;
    }
    var suffix := 1;
    AllTakenBound(qs, base, exclude, suffix);
    while Taken(qs, Suffixed(base, suffix), exclude)
      invariant 1 <= suffix <= |qs|
      invariant forall k: nat | 1 <= k < suffix :: Taken(qs, Suffixed(base, k), exclude)
      invariant FreeFrom(qs, base, exclude, 1) == FreeFrom(qs, base, exclude, suffix)
      decreases |qs| - suffix
    {
      suffix := suffix + 1;
      AllTakenBound(qs, base, exclude, suffix);
    }
    SuffixedDistinct(base, suffix, suffix);
    r := Suffixed(base, suffix);
  }

  // ---------------------------------------------------------------- what each event does

  function NameIn(payload: map<string, string>): Option<string> {
    if "display_name" in payload then Some(payload["display_name"]) else None
  }

  function Updates(mask: seq<string>, payload: map<string, string>): map<string, string> {
    if "*" in mask then payload else map k | k in payload && k in mask :: payload[k]
  }

  predicate KnownMask(mask: seq<string>) { forall f | f in mask :: f in UPDATABLE || f == "*" }

  /** `stored.update(updates)`, with the display name already settled. */
  function Overwrite(q: Query, updates: map<string, string>, name: Option<string>): Query {
    Query(if "id" in updates then updates["id"] else q.id, name, q.fields + (updates - {"id", "display_name"}))
  }

  ghost function Handle(qs: Store, e: Event): (Store, Response) {
    match e
    case Create(newId, payload, auto) =>
      var name := NameIn(payload);
      if !auto && name.Some? && Taken(qs, name.value, None) then (qs, NameTaken)
      else
        var settled := if auto then Some(Resolved(qs, name, None)) else name;
        (qs[newId := Query(newId, settled, payload - {"id", "display_name"})], Done)
    case Update(id, mask, payload, auto) =>
      if id !in qs then (qs, NotFound)
      else if mask.None? then (qs, MaskRequired)
      else if !KnownMask(mask.value) then (qs, UnknownField)
      else
        var updates := Updates(mask.value, payload);
        var name := NameIn(updates);
        if name.None? then (qs[id := Overwrite(qs[id], updates, qs[id].name)], Done)
        else if auto then (qs[id := Overwrite(qs[id], updates, Some(Resolved(qs, name, Some(id))))], Done)
        else if Taken(qs, name.value, Some(id)) then (qs, NameTaken)
        else (qs[id := Overwrite(qs[id], updates, name)], Done)
    case Delete(id) =>
      if id !in qs then (qs, NotFound) else (qs - {id}, Done)
    case LegacyUpdate(id, rename, fields) =>
      if id !in qs then (qs, NotFound)
      else
        var q := qs[id];
        (qs[id := Query(q.id, if rename.Some? then rename.value else q.name, q.fields + fields)], Done)
  }

  ghost function Run(qs: Store, events: seq<Event>): Store
    decreases |events|
  {
    if events == [] then qs else Run(Handle(qs, events[0]).0, events[1..])
  }

  // ---------------------------------------------------------------- what is written to a query

  /** The name found when only the base is taken. */
  lemma FirstSuffix(qs: Store, name: string, exclude: Option<string>)
    requires Taken(qs, name, exclude) && !Taken(qs, name + " (1)", exclude)
    ensures Resolved(qs, Some(name), exclude) == name + " (1)"
  {
    assert Digits(1) == "1" by { assert Digit(1) == '1'; }
    assert Suffixed(name, 1) == name + " (1)";
    hide Suffixed, Taken;
  }

  /** A new query is stored under its id with the payload, its name as given or, if asked for, a free one. */
  lemma CreateWrites(qs: Store, newId: string, payload: map<string, string>, auto: bool)
    ensures
      var (now, r) := Handle(qs, Create(newId, payload, auto));
      var name := if "display_name" in payload then Some(payload["display_name"]) else None;
      && (r == Done || r == NameTaken)
      && (r == NameTaken <==> !auto && name.Some? && Taken(qs, name.value, None))
      && (r == NameTaken ==> now == qs && name != Some(""))
      && (r == Done ==> newId in now && now == qs[newId := now[newId]])
      && (r == Done ==> now[newId].id == newId && now[newId].name == if auto then Some(Resolved(qs, name, None)) else name)
      && (r == Done ==> forall f | f !in {"id", "display_name"} ::
            (f in now[newId].fields <==> f in payload) && (f in payload ==> now[newId].fields[f] == payload[f]))
  {
    hide Resolved;
  }

  /**
   * An update is accepted exactly when its mask names known fields or `*` and a name it sends is free, or a free
   * one is asked for; it then writes the masked fields of the payload and keeps every other one.
   */
  lemma UpdateWrites(qs: Store, id: string, mask: seq<string>, payload: map<string, string>, auto: bool)
    requires id in qs
    ensures
      var (now, r) := Handle(qs, Update(id, Some(mask), payload, auto));
      var written := f => f in payload && ("*" in mask || f in mask);
      var known := forall f | f in mask ::
        f in {"*", "display_name", "description", "query_text", "catalog", "schema", "warehouse_id", "tags",
              "apply_auto_limit", "run_as_mode", "owner_user_name"};
      && (r == UnknownField <==> !known)
      && (r == NameTaken <==>
            known && written("display_name") && !auto && Taken(qs, payload["display_name"], Some(id)))
      && (r == Done || r == UnknownField || r == NameTaken) && (r != Done ==> now == qs)
      && (r == NameTaken ==> payload["display_name"] != "")
      && (r == Done ==> id in now && now == qs[id := now[id]])
      && (r == Done && !written("display_name") ==> now[id].name == qs[id].name)
      && (r == Done && written("display_name") && auto ==>
            now[id].name == Some(Resolved(qs, Some(payload["display_name"]), Some(id))))
      && (r == Done && written("display_name") && !auto ==> now[id].name == Some(payload["display_name"]))
      && (r == Done ==> forall f | f !in {"id", "display_name"} ::
            && (f in now[id].fields <==> written(f) || f in qs[id].fields)
            && (f in now[id].fields ==> now[id].fields[f] == if written(f) then payload[f] else qs[id].fields[f]))
  {
    hide Resolved;
  }

  // ---------------------------------------------------------------- names stay apart

  /** Each query's `id` field is the key it is stored under. */
  predicate OwnIds(qs: Store) { forall k | k in qs :: qs[k].id == k }

  /** No two queries share a display name that is not empty. */
  predicate NamesApart(qs: Store) {
    forall a, b | a in qs && b in qs && a != b && qs[a].name == qs[b].name ::
      qs[a].name == None || qs[a].name == Some("")
  }

  /** A payload a modern route accepts under `*` may carry an `id` of its own. */
  predicate CarriesId(e: Event) {
    e.Update? && e.mask.Some? && "*" in e.mask.value && "id" in e.payload && e.payload["id"] != e.id
  }

  /** Storing a query under a name no other holds. */
  lemma StoreKeeps(qs: Store, id: string, q: Query)
    requires OwnIds(qs) && NamesApart(qs) && q.id == id
    requires q.name.Some? ==> !Taken(qs, q.name.value, Some(id))
    ensures OwnIds(qs[id := q]) && NamesApart(qs[id := q])
  {
  }

  /** The modern routes keep display names apart, for payloads that carry no other id. */
  lemma HandleKeeps(qs: Store, e: Event)
    requires OwnIds(qs) && NamesApart(qs) && !CarriesId(e) && !e.LegacyUpdate?
    ensures OwnIds(Handle(qs, e).0) && NamesApart(Handle(qs, e).0)
  {
    hide OwnIds, NamesApart, Taken, Resolved, UPDATABLE;
    match e
    case Create(newId, payload, auto) =>
      var name := NameIn(payload);
      var settled := if auto then Some(Resolved(qs, name, None)) else name;
      if auto {
        ResolvedFree(qs, name, None);
      }
      if settled.Some? {
        TakenLess(qs, settled.value, newId);
      }
      if auto || name.None? || !Taken(qs, name.value, None) {
        StoreKeeps(qs, newId, Query(newId, settled, payload - {"id", "display_name"}));
      }
    case Update(id, mask, payload, auto) =>
      if id in qs && mask.Some? && KnownMask(mask.value) {
        NoOtherId(mask.value, payload, id);
        UpdateKeeps(qs, id, Updates(mask.value, payload), auto);
      }
    case Delete(id) => DeleteKeeps(qs, id);
  }

  lemma IdNotUpdatable()
    ensures "id" !in UPDATABLE && "id" != "*"
  {
  }

  lemma NoOtherId(mask: seq<string>, payload: map<string, string>, id: string)
    requires KnownMask(mask) && ("*" in mask && "id" in payload ==> payload["id"] == id)
    ensures "id" in Updates(mask, payload) ==> Updates(mask, payload)["id"] == id
  {
    IdNotUpdatable();
  }

  lemma DeleteKeeps(qs: Store, id: string)
    requires OwnIds(qs) && NamesApart(qs)
    ensures OwnIds(qs - {id}) && NamesApart(qs - {id})
  {
  }

  lemma TakenLess(qs: Store, name: string, exclude: string)
    ensures !Taken(qs, name, None) ==> !Taken(qs, name, Some(exclude))
  {
  }

  lemma ResolvedFree(qs: Store, name: Option<string>, exclude: Option<string>)
    ensures !Taken(qs, Resolved(qs, name, exclude), exclude) && Resolved(qs, name, exclude) != ""
  {
    var base := if name.Some? && name.value != "" then name.value else "New query";
    if Taken(qs, base, exclude) {
      SuffixedDistinct(base, FreeFrom(qs, base, exclude, 1), 1);
    }
    hide Taken, Suffixed;
  }

  lemma UpdateKeeps(qs: Store, id: string, updates: map<string, string>, auto: bool)
    requires OwnIds(qs) && NamesApart(qs) && id in qs && ("id" in updates ==> updates["id"] == id)
    ensures NameIn(updates).None? ==>
      var r := qs[id := Overwrite(qs[id], updates, qs[id].name)]; OwnIds(r) && NamesApart(r)
    ensures NameIn(updates).Some? ==>
      var r := qs[id := Overwrite(qs[id], updates, Some(Resolved(qs, NameIn(updates), Some(id))))];
      OwnIds(r) && NamesApart(r)
    ensures NameIn(updates).Some? && !Taken(qs, NameIn(updates).value, Some(id)) ==>
      var r := qs[id := Overwrite(qs[id], updates, NameIn(updates))]; OwnIds(r) && NamesApart(r)
  {
    assert qs[id].id == id;
    OwnNameFree(qs, id);
    hide OwnIds, NamesApart, Taken, Resolved;
    var name := NameIn(updates);
    StoreKeeps(qs, id, Overwrite(qs[id], updates, qs[id].name));
    if name.Some? {
      ResolvedFree(qs, name, Some(id));
      StoreKeeps(qs, id, Overwrite(qs[id], updates, Some(Resolved(qs, name, Some(id)))));
      if !Taken(qs, name.value, Some(id)) {
        StoreKeeps(qs, id, Overwrite(qs[id], updates, name));
      }
    }
  }

  lemma OwnNameFree(qs: Store, id: string)
    requires OwnIds(qs) && NamesApart(qs) && id in qs
    ensures qs[id].name.Some? ==> !Taken(qs, qs[id].name.value, Some(id))
  {
  }

  /** Every run of the modern routes keeps the display names apart. */
  lemma {:induction false} RunKeeps(qs: Store, events: seq<Event>)
    requires OwnIds(qs) && NamesApart(qs) && forall e | e in events :: !CarriesId(e) && !e.LegacyUpdate?
    ensures OwnIds(Run(qs, events)) && NamesApart(Run(qs, events))
    decreases |events|
  {
    hide OwnIds, NamesApart, Handle;
    if events != [] {
      assert events[0] in events;
      HandleKeeps(qs, events[0]);
      RunKeeps(Handle(qs, events[0]).0, events[1..]);
    }
  }

  /** Sending a query its own name again changes no name, resolved automatically or not. */
  lemma SameNameAgain(qs: Store, id: string, auto: bool)
    requires OwnIds(qs) && NamesApart(qs) && id in qs && qs[id].name.Some? && qs[id].name.value != ""
    ensures var r := Handle(qs, Update(id, Some(["display_name"]), map["display_name" := qs[id].name.value], auto));
      r.1 == Done && r.0[id].name == qs[id].name
  {
    OwnNameFree(qs, id);
    assert KnownMask(["display_name"]);
    hide Taken, OwnIds, NamesApart, UPDATABLE;
    var payload := map["display_name" := qs[id].name.value];
    assert "display_name" in Updates(["display_name"], payload);
  }

  // ---------------------------------------------------------------- what breaks it

  /** An accepted update keeps the ids right exactly when it carries no other id. */
  lemma IdsKeptIff(qs: Store, e: Event)
    requires OwnIds(qs) && e.Update? && e.id in qs && Handle(qs, e).1 == Done
    ensures OwnIds(Handle(qs, e).0) <==> !CarriesId(e)
  {
    hide Taken, Resolved, UPDATABLE;
    NoOtherIdIff(e.mask.value, e.payload, e.id);
    assert Handle(qs, e).0[e.id].id == Overwrite(qs[e.id], Updates(e.mask.value, e.payload), None).id;
  }

  lemma NoOtherIdIff(mask: seq<string>, payload: map<string, string>, id: string)
    requires KnownMask(mask)
    ensures "id" in Updates(mask, payload) ==> "*" in mask && Updates(mask, payload)["id"] == payload["id"]
    ensures "*" in mask && "id" in payload ==> "id" in Updates(mask, payload)
  {
    IdNotUpdatable();
  }

  /** No query's `id` is the key of another one: the least that lets the name check see every other query. */
  predicate NoneBorrowed(qs: Store) { forall k | k in qs :: qs[k].id == k || qs[k].id !in qs }

  /** The update carries the key of another stored query. */
  predicate Borrows(qs: Store, e: Event) { CarriesId(e) && e.payload["id"] in qs }

  /** A modern request that borrows no key; a created query's key is new. */
  predicate Ordinary(qs: Store, e: Event) {
    && !e.LegacyUpdate? && !Borrows(qs, e)
    && (e.Create? ==> e.newId !in qs && forall k | k in qs :: qs[k].id != e.newId)
  }

  ghost predicate OrdinaryRun(qs: Store, events: seq<Event>)
    decreases |events|
  {
    events != [] ==> Ordinary(qs, events[0]) && OrdinaryRun(Handle(qs, events[0]).0, events[1..])
  }

  /** Storing a query under a name no other holds, with an id no other is stored under. */
  lemma StoreApart(qs: Store, key: string, q: Query)
    requires NoneBorrowed(qs) && NamesApart(qs)
    requires q.id == key || q.id !in qs
    requires key in qs || forall k | k in qs :: qs[k].id != key
    requires q.name.Some? ==> !Taken(qs, q.name.value, Some(key)) || (key in qs && q.name == qs[key].name)
    ensures NoneBorrowed(qs[key := q]) && NamesApart(qs[key := q])
  {
    var r := qs[key := q];
    forall a, b | a in r && b in r && a != b && r[a].name == r[b].name
      ensures r[a].name == None || r[a].name == Some("")
    {
      if a == key {
        assert qs[b].id != key;
      } else if b == key {
        assert qs[a].id != key;
      }
    }
  }

  /** An ordinary request keeps names apart, even where some query's `id` is no key at all. */
  lemma OrdinaryKeeps(qs: Store, e: Event)
    requires NoneBorrowed(qs) && NamesApart(qs) && Ordinary(qs, e)
    ensures NoneBorrowed(Handle(qs, e).0) && NamesApart(Handle(qs, e).0)
  {
    match e
    case Create(newId, payload, auto) =>
      hide NoneBorrowed, NamesApart, Taken, Resolved;
      var name := NameIn(payload);
      var settled := if auto then Some(Resolved(qs, name, None)) else name;
      ResolvedFree(qs, name, None);
      if settled.Some? {
        TakenLess(qs, settled.value, newId);
      }
      if auto || name.None? || !Taken(qs, name.value, None) {
        StoreApart(qs, newId, Query(newId, settled, payload - {"id", "display_name"}));
      }
    case Update(id, mask, payload, auto) =>
      if Handle(qs, e).1 == Done {
        assert qs[id].id == id || qs[id].id !in qs;
        hide NoneBorrowed, NamesApart, Taken, Resolved, UPDATABLE;
        NoOtherIdIff(mask.value, payload, id);
        var updates := Updates(mask.value, payload);
        var name := NameIn(updates);
        ResolvedFree(qs, name, Some(id));
        var settled := if name.None? then qs[id].name else if auto then Some(Resolved(qs, name, Some(id))) else name;
        StoreApart(qs, id, Overwrite(qs[id], updates, settled));
      }
    case Delete(id) =>
  }

  lemma {:induction false} OrdinaryRunKeeps(qs: Store, events: seq<Event>)
    requires NoneBorrowed(qs) && NamesApart(qs) && OrdinaryRun(qs, events)
    ensures NoneBorrowed(Run(qs, events)) && NamesApart(Run(qs, events))
    decreases |events|
  {
    hide NoneBorrowed, NamesApart, Handle, Ordinary;
    if events != [] {
      OrdinaryKeeps(qs, events[0]);
      OrdinaryRunKeeps(Handle(qs, events[0]).0, events[1..]);
    }
  }

  function Rename(id: string, name: string): Event {
    Update(id, Some(["display_name"]), map["display_name" := name], false)
  }

  lemma RenameDone(qs: Store, id: string, name: string)
    requires id in qs && !Taken(qs, name, Some(id))
    ensures Handle(qs, Rename(id, name)).1 == Done && Ordinary(qs, Rename(id, name))
    ensures var r := Handle(qs, Rename(id, name)).0;
      r.Keys == qs.Keys && r[id].name == Some(name) && r[id].id == qs[id].id && forall k | k in qs && k != id :: r[k] == qs[k]
  {
    assert KnownMask(["display_name"]);
    hide Taken, UPDATABLE;
    var payload := map["display_name" := name];
    assert "display_name" in Updates(["display_name"], payload);
    NoOtherIdIff(["display_name"], payload, id);
    assert "*" !in ["display_name"];
  }

  /** Two renames give a borrower and the query whose key it holds one name. */
  lemma BorrowedShares(qs: Store, a: string, b: string) returns (events: seq<Event>)
    requires a in qs && b in qs && a != b && qs[b].id == a
    ensures OrdinaryRun(qs, events) && !NamesApart(Run(qs, events))
  {
    var name := Resolved(qs, None, None);
    ResolvedFree(qs, None, None);
    TakenLess(qs, name, b);
    RenameDone(qs, b, name);
    var mid := Handle(qs, Rename(b, name)).0;
    assert !Taken(mid, name, Some(a));
    RenameDone(mid, a, name);
    var end := Handle(mid, Rename(a, name)).0;
    assert end[a].name == end[b].name == Some(name);
    hide Handle, Taken, Ordinary, Resolved;
    events := [Rename(b, name), Rename(a, name)];
    assert events[1..] == [Rename(a, name)];
    assert Run(mid, [Rename(a, name)]) == Run(end, []) == end;
    assert OrdinaryRun(end, []);
    assert OrdinaryRun(mid, [Rename(a, name)]);
  }

  /** Names stay apart in every run of ordinary requests exactly when no stored query has borrowed a key. */
  lemma NamesStayApartIff(qs: Store)
    requires NamesApart(qs)
    ensures NoneBorrowed(qs) <==> forall events | OrdinaryRun(qs, events) :: NamesApart(Run(qs, events))
  {
    hide Handle, NamesApart, OrdinaryRun, Run;
    if NoneBorrowed(qs) {
      forall events | OrdinaryRun(qs, events) ensures NamesApart(Run(qs, events)) {
        OrdinaryRunKeeps(qs, events);
      }
    } else {
      var b :| b in qs && qs[b].id != b && qs[b].id in qs;
      var events := BorrowedShares(qs, qs[b].id, b);
    }
  }

  /**
   * After an accepted update the names stay apart through every run of ordinary requests exactly when the
   * update does not carry the key of another stored query.
   */
  lemma CarriedIdIff(qs: Store, e: Event)
    requires NoneBorrowed(qs) && NamesApart(qs) && e.Update? && Handle(qs, e).1 == Done
    ensures var after := Handle(qs, e).0;
      !Borrows(qs, e) <==> forall events | OrdinaryRun(after, events) :: NamesApart(Run(after, events))
  {
    var after := Handle(qs, e).0;
    if !Borrows(qs, e) {
      OrdinaryKeeps(qs, e);
      hide Handle, NamesApart, NoneBorrowed, Borrows;
      NamesStayApartIff(after);
    } else {
      NoOtherIdIff(e.mask.value, e.payload, e.id);
      assert after.Keys == qs.Keys && after[e.id].id == e.payload["id"] by { hide Taken, Resolved, UPDATABLE; }
      hide Handle, NamesApart, OrdinaryRun, Run;
      var events := BorrowedShares(after, e.payload["id"], e.id);
    }
  }

  /** A query given another's id hides its name from that other one's check: two queries end up with one name. */
  lemma ForeignIdHidesName(qs: Store, a: string, b: string)
    requires OwnIds(qs) && NamesApart(qs) && a in qs && b in qs && a != b
    requires qs[b].name == Some("report") && qs[a].name == Some("draft")
    ensures
      var lent := Handle(qs, Update(b, Some(["*"]), map["id" := a], false)).0;
      var r := Handle(lent, Update(a, Some(["display_name"]), map["display_name" := "report"], false));
      r.1 == Done && r.0[a].name == Some("report") && r.0[b].name == Some("report") && !NamesApart(r.0)
  {
    assert KnownMask(["*"]) && KnownMask(["display_name"]);
    hide UPDATABLE;
    var first := Update(b, Some(["*"]), map["id" := a], false);
    assert "*" in first.mask.value;
    var lent := Handle(qs, first).0;
    assert lent[b].id == a && lent[b].name == Some("report");
    var payload := map["display_name" := "report"];
    assert "display_name" in Updates(["display_name"], payload);
    assert forall k | k in lent && lent[k].name == Some("report") :: k in qs && qs[k].name == Some("report");
  }

  /** The legacy route renames without a check: names stay apart exactly when the new one is free or empty. */
  lemma LegacyRenameKeepsIff(qs: Store, id: string, name: Option<string>, fields: map<string, string>)
    requires OwnIds(qs) && NamesApart(qs) && id in qs
    ensures NamesApart(Handle(qs, LegacyUpdate(id, Some(name), fields)).0) <==>
      name == None || !Taken(qs, name.value, Some(id))
  {
    var r := Handle(qs, LegacyUpdate(id, Some(name), fields)).0;
    if name.Some? && Taken(qs, name.value, Some(id)) {
      var k :| k in qs && qs[k].name == name && Some(qs[k].id) != Some(id);
      assert k != id && r[k].name == r[id].name;
    }
  }

  // ---------------------------------------------------------------- the service

  class Service {
    var queries: Store

    constructor ()
      ensures queries == map[] && OwnIds(queries) && NamesApart(queries)
    {
      queries := map[];
    }

    method CreateQuery(newId: string, payload: map<string, string>, autoResolve: bool) returns (r: Response)
      modifies this
      ensures (queries, r) == Handle(old(queries), Create(newId, payload, autoResolve))
    {
      hide Taken, Resolved;
      var name := NameIn(payload);
      if autoResolve {
        var resolved := ResolveDisplayName(queries, name, None);
        name := Some(resolved);
      } else if name.Some? && Taken(queries, name.value, None) {
        return NameTaken;
      }
      queries := queries[newId := Query(newId, name, payload - {"id", "display_name"})];
      r := Done;
    }

    method UpdateQuery(id: string, mask: Option<seq<string>>, payload: map<string, string>, autoResolve: bool)
      returns (r: Response)
      modifies this
      ensures (queries, r) == Handle(old(queries), Update(id, mask, payload, autoResolve))
    {
      hide Taken, Resolved, UPDATABLE;
      if id !in queries {
        return NotFound;
      }
      if mask.None? {
        return MaskRequired;
      }
      if !KnownMask(mask.value) {
        return UnknownField;
      }
      var updates := Updates(mask.value, payload);
      var name := NameIn(updates);
      if name.Some? {
        if autoResolve {
          var resolved := ResolveDisplayName(queries, name, Some(id));
          name := Some(resolved);
        } else if Taken(queries, name.value, Some(id)) {
          return NameTaken;
        }
      } else {
        name := queries[id].name;
      }
      queries := queries[id := Overwrite(queries[id], updates, name)];
      r := Done;
    }

    method DeleteQuery(id: string) returns (r: Response)
      modifies this
      ensures (queries, r) == Handle(old(queries), Delete(id))
      ensures queries == old(queries) - {id} && (r == Done <==> id in old(queries))
      ensures NoneBorrowed(old(queries)) && NamesApart(old(queries)) ==> NoneBorrowed(queries) && NamesApart(queries)
    {
      if id !in queries {
        return NotFound;
      }
      queries := queries - {id};
      r := Done;
    }

    method UpdateQueryLegacy(id: string, rename: Option<Option<string>>, fields: map<string, string>)
      returns (r: Response)
      modifies this
      ensures (queries, r) == Handle(old(queries), LegacyUpdate(id, rename, fields))
      ensures queries.Keys == old(queries).Keys && (r == Done <==> id in queries)
      ensures forall k | k in queries :: queries[k].id == old(queries)[k].id && (k != id ==> queries[k] == old(queries)[k])
      ensures rename.None? ==> forall k | k in queries :: queries[k].name == old(queries)[k].name
      ensures r == Done ==> (rename.Some? ==> queries[id].name == rename.value)
      ensures r == Done ==> queries[id].fields == old(queries)[id].fields + fields
    {
      if id !in queries {
        return NotFound;
      }
      var q := queries[id];
      queries := queries[id := Query(q.id, if rename.Some? then rename.value else q.name, q.fields + fields)];
      r := Done;
    }
  }
}
