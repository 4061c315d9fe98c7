/** Grants on Unity Catalog securables, and the privileges inherited along a dotted name. */
module Grants {
  import opened Text
  import opened DottedNames

  // ---------------------------------------------------------------- securables

  /** A securable's kind and name; the metastore itself has no name. */
  datatype Key = Key(kind: string, name: Option<string>)

  const METASTORE: Key := Key("METASTORE", None)

  /** How many parts the names of a nested kind have. */
  function Depth(kind: string): Option<nat> {
    if kind == "CATALOG" then Some(1)
    else if kind == "SCHEMA" then Some(2)
    else if kind == "TABLE" || kind == "VOLUME" || kind == "FUNCTION" then Some(3)
    else None
  }

  /** The part after the last dot, in upper case. */
  function NormalizeSecurable(securableType: string): string {
    var parts := SplitDots(securableType);
    Upper(parts[|parts| - 1])
  }

  /** The kind of a securable whose name has the parts its kind asks for. */
  function Validate(securableType: string, fullName: string): Option<string> {
    var kind := NormalizeSecurable(securableType);
    match Depth(kind)
    case None => Some(kind)
    case Some(n) => if |SplitDots(fullName)| == n then Some(kind) else None
  }

  function FirstParts(parts: seq<string>, n: nat): string {
    Join(if n <= |parts| then parts[..n] else parts, ".")
  }

  /** Every securable a grant could be inherited from, nearest first. */
  function Ancestors(kind: string, fullName: string): seq<Key> {
    var parts := SplitDots(fullName);
    var depth := Depth(kind);
    (if depth.Some? && 2 < depth.value then [Key("SCHEMA", Some(FirstParts(parts, 2)))] else []) +
    (if depth.Some? && 1 < depth.value then [Key("CATALOG", Some(FirstParts(parts, 1)))] else []) +
    [METASTORE]
  }

  // ---------------------------------------------------------------- grants

  /** The privileges each principal holds. */
  type Assignments = map<string, set<string>>

  type Store = map<Key, Assignments>

  datatype Change = Change(principal: Option<string>, add: set<string>, remove: set<string>)

  function At(g: Store, key: Key): Assignments { if key in g then g[key] else map[] }

  predicate Holds(a: Assignments, who: string, privilege: string) { who in a && privilege in a[who] }

  function UpperAll(privileges: set<string>): set<string> { set p | p in privileges :: Upper(p) }

  predicate HasPrincipal(c: Change) { c.principal.Some? && c.principal.value != "" }

  /** One change: privileges added, then removed; a principal left with none is dropped. */
  function Apply(a: Assignments, c: Change): Assignments
    requires HasPrincipal(c)
  {
    var who := c.principal.value;
    var privileges := (if who in a then a[who] else {}) + UpperAll(c.add) - UpperAll(c.remove);
    if privileges == {} then a - {who} else a[who := privileges]
  }

  function ApplyAll(a: Assignments, changes: seq<Change>): Assignments
    requires forall c | c in changes :: HasPrincipal(c)
    decreases |changes|
  {
    if changes == [] then a
    else
      var last := changes[|changes| - 1];
      Apply(ApplyAll(a, changes[..|changes| - 1]), last)
  }

  /** The changes before the first one without a principal. */
  function Sound(changes: seq<Change>): (r: seq<Change>)
    ensures r <= changes && (forall c | c in r :: HasPrincipal(c))
    ensures |r| < |changes| ==> !HasPrincipal(changes[|r|])
  {
    if changes == [] || !HasPrincipal(changes[0]) then [] else [changes[0]] + Sound(changes[1..])
  }

  /**
   * What the changes amount to: a privilege is held at the end exactly when the last change that touches it
   * for the principal adds it, or none does and it was held before. Removing wins within one change.
   */
  predicate HeldAfter(a: Assignments, changes: seq<Change>, who: string, privilege: string)
    decreases |changes|
  {
    if changes == [] then Holds(a, who, privilege)
    else
      var last := changes[|changes| - 1];
      if last.principal != Some(who) then HeldAfter(a, changes[..|changes| - 1], who, privilege)
      else if privilege in UpperAll(last.remove) then false
      else privilege in UpperAll(last.add) || HeldAfter(a, changes[..|changes| - 1], who, privilege)
  }

  predicate NoEmpty(a: Assignments) { forall who | who in a :: a[who] != {} }

  lemma ApplyMeaning(a: Assignments, c: Change, who: string, privilege: string)
    requires HasPrincipal(c)
    ensures Holds(Apply(a, c), who, privilege) <==>
      if c.principal != Some(who) then Holds(a, who, privilege)
      else privilege !in UpperAll(c.remove) && (privilege in UpperAll(c.add) || Holds(a, who, privilege))
    ensures NoEmpty(a) ==> NoEmpty(Apply(a, c))
  {
    hide UpperAll;
    var name := c.principal.value;
    var privileges := (if name in a then a[name] else {}) + UpperAll(c.add) - UpperAll(c.remove);
    assert privilege in privileges <==>
      privilege !in UpperAll(c.remove) && (privilege in UpperAll(c.add) || Holds(a, name, privilege));
  }

  lemma {:induction false} ApplyAllMeaning(a: Assignments, changes: seq<Change>, who: string, privilege: string)
    requires forall c | c in changes :: HasPrincipal(c)
    ensures Holds(ApplyAll(a, changes), who, privilege) <==> HeldAfter(a, changes, who, privilege)
    ensures NoEmpty(a) ==> NoEmpty(ApplyAll(a, changes))
    decreases |changes|
  {
    hide UpperAll, Apply;
    if changes != [] {
      var last := changes[|changes| - 1];
      ApplyAllMeaning(a, changes[..|changes| - 1], who, privilege);
      ApplyMeaning(ApplyAll(a, changes[..|changes| - 1]), last, who, privilege);
    }
  }

  datatype UpdateResult = Updated | InvalidName | NoPrincipal

  /** The store an update leaves: on an error part of the changes are applied, and an empty entry can stay. */
  function UpdatedStore(g: Store, securableType: string, fullName: string, changes: seq<Change>)
    : (Store, UpdateResult)
  {
    match Validate(securableType, fullName)
    case None => (g, InvalidName)
    case Some(kind) =>
      var key := Key(kind, Some(fullName));
      var after := ApplyAll(At(g, key), Sound(changes));
      if Sound(changes) != changes then (g[key := after], NoPrincipal)
      else if after == map[] then (g - {key}, Updated)
      else (g[key := after], Updated)
  }

  // ---------------------------------------------------------------- effective privileges

  datatype Source = Direct | Inherited(from: Key)

  type Effective = map<string, map<string, Source>>

  /** The securable itself, then its ancestors. */
  function Chain(kind: string, fullName: string): seq<Key> { [Key(kind, Some(fullName))] + Ancestors(kind, fullName) }

  /** The first securable of the chain on which the principal holds the privilege. */
  function Nearest(g: Store, chain: seq<Key>, who: string, privilege: string): (r: Option<nat>)
    ensures r.None? <==> forall k | 0 <= k < |chain| :: !Holds(At(g, chain[k]), who, privilege)
    ensures r.Some? ==> r.value < |chain| && Holds(At(g, chain[r.value]), who, privilege)
    ensures r.Some? ==> forall k | 0 <= k < r.value :: !Holds(At(g, chain[k]), who, privilege)
  {
    if chain == [] then None
    else if Holds(At(g, chain[0]), who, privilege) then Some(0)
    else match Nearest(g, chain[1..], who, privilege)
      case None => None
      case Some(k) => Some(k + 1)
  }

  function SourceAt(chain: seq<Key>, k: nat): Source
    requires k < |chain|
  {
    if k == 0 then Direct else Inherited(chain[k])
  }

  /** `e` holds the privileges granted on the chain, each with its nearest source. */
  ghost predicate Resolves(g: Store, chain: seq<Key>, upTo: nat, e: Effective)
    requires upTo <= |chain|
  {
    forall who, privilege ::
      Lookup(e, who, privilege) ==
        match Nearest(g, chain[..upTo], who, privilege)
        case None => None
        case Some(k) => Some(SourceAt(chain, k))
  }

  function Lookup(e: Effective, who: string, privilege: string): Option<Source> {
    if who in e && privilege in e[who] then Some(e[who][privilege]) else None
  }

  // ---------------------------------------------------------------- the chain, on the names

  /** The kinds whose names are dotted, with the number of their parts. */
  predicate Nested(kind: string, n: nat) {
    || (kind == "CATALOG" && n == 1)
    || (kind == "SCHEMA" && n == 2)
    || (kind in {"TABLE", "VOLUME", "FUNCTION"} && n == 3)
  }

  predicate Dotless(parts: seq<string>) { parts != [] && forall p | p in parts :: '.' !in p }

  /** The securable `k` parts up from a name, the metastore above its first part. */
  function OnTheWay(kind: string, parts: seq<string>, k: nat): Key
    requires k <= |parts|
  {
    if k == 0 then Key(kind, Some(Join(parts, ".")))
    else if k == |parts| then Key("METASTORE", None)
    else Key(if |parts| - k == 1 then "CATALOG" else "SCHEMA", Some(Join(parts[..|parts| - k], ".")))
  }

  /** The last part of a path segment names the kind, in upper case; `SecurableType.table` is a TABLE. */
  lemma KindOfSegment(prefix: string, kind: string)
    requires '.' !in kind
    ensures NormalizeSecurable(kind) == Upper(kind) && NormalizeSecurable(prefix + "." + kind) == Upper(kind)
  {
    SplitPlain(kind);
    SplitConcat(prefix, kind);
    hide SplitDots, Upper;
  }

  /** A name is accepted exactly when it has the parts of a nested kind, or the kind is not nested. */
  lemma ValidIff(kind: string, parts: seq<string>)
    requires '.' !in kind && Dotless(parts)
    ensures Validate(kind, Join(parts, ".")) ==
      if Nested(Upper(kind), |parts|) || !exists n: nat :: Nested(Upper(kind), n) then Some(Upper(kind)) else None
  {
    KindOfSegment("", kind);
    SplitJoin(parts);
    DepthIff(Upper(kind));
    hide SplitDots, Upper, Join, NormalizeSecurable, Depth, Nested;
  }

  lemma DepthIff(kind: string)
    ensures forall n: nat :: Nested(kind, n) <==> Depth(kind) == Some(n)
  {
  }

  /** The chain of a nested name leads up part by part; that of any other goes straight to the metastore. */
  lemma ChainOrder(kind: string, parts: seq<string>)
    requires Dotless(parts)
    ensures Nested(kind, |parts|) ==>
      var chain := Chain(kind, Join(parts, "."));
      |chain| == |parts| + 1 && forall k | 0 <= k <= |parts| :: chain[k] == OnTheWay(kind, parts, k)
    ensures (!exists n: nat :: Nested(kind, n)) ==>
      forall name :: Chain(kind, name) == [Key(kind, Some(name)), Key("METASTORE", None)]
  {
    DepthIff(kind);
    if Nested(kind, |parts|) {
      SplitJoin(parts);
      assert |parts| <= 3;
      hide SplitDots, Join, Nested, Depth;
      NestedChain(kind, parts);
    } else {
      hide SplitDots, Join, Nested, Depth;
    }
  }

  lemma NestedChain(kind: string, parts: seq<string>)
    requires parts != [] && |parts| <= 3 && Depth(kind) == Some(|parts|) && SplitDots(Join(parts, ".")) == parts
    ensures
      var chain := Chain(kind, Join(parts, "."));
      |chain| == |parts| + 1 && forall k | 0 <= k <= |parts| :: chain[k] == OnTheWay(kind, parts, k)
  {
    hide SplitDots, Join, Depth;
  }

  /**
   * What the effective privileges say on the names: a privilege is direct exactly when it is granted on the
   * securable itself, and inherited from one above exactly when it is granted there and on none with more parts.
   */
  lemma SourceIff(g: Store, kind: string, parts: seq<string>, e: Effective, who: string, privilege: string)
    requires Dotless(parts) && Nested(kind, |parts|)
    requires var chain := Chain(kind, Join(parts, ".")); Resolves(g, chain, |chain|, e)
    ensures Lookup(e, who, privilege) == Some(Direct) <==> Holds(At(g, Key(kind, Some(Join(parts, ".")))), who, privilege)
    ensures forall k | 0 < k <= |parts| ::
      Lookup(e, who, privilege) == Some(Inherited(OnTheWay(kind, parts, k))) <==>
        && Holds(At(g, OnTheWay(kind, parts, k)), who, privilege)
        && forall j | 0 <= j < k :: !Holds(At(g, OnTheWay(kind, parts, j)), who, privilege)
    ensures Lookup(e, who, privilege).None? <==>
      forall k | 0 <= k <= |parts| :: !Holds(At(g, OnTheWay(kind, parts, k)), who, privilege)
  {
    ChainOrder(kind, parts);
    var chain := Chain(kind, Join(parts, "."));
    hide Chain, Nearest, Holds, At, Lookup, Join;
    assert chain[..|chain|] == chain;
    assert forall k | 0 <= k <= |parts| :: chain[k] == OnTheWay(kind, parts, k);
    assert forall j, k | 0 < j < k <= |parts| :: OnTheWay(kind, parts, j) != OnTheWay(kind, parts, k);
    assert Lookup(e, who, privilege) ==
      match Nearest(g, chain, who, privilege) case None => None case Some(k) => Some(SourceAt(chain, k));
  }

  /** An update fails exactly on a name of the wrong length, or on a change with no principal or an empty one. */
  lemma UpdateFailsIff(g: Store, securableType: string, fullName: string, changes: seq<Change>)
    ensures var r := UpdatedStore(g, securableType, fullName, changes).1;
      && (r == InvalidName <==> Validate(securableType, fullName).None?)
      && (r == NoPrincipal <==>
            Validate(securableType, fullName).Some? && exists c :: c in changes && c.principal in {None, Some("")})
  {
    var n := |Sound(changes)|;
    if n < |changes| {
      assert changes[n] in changes;
    } else {
      assert forall c | c in changes :: HasPrincipal(c);
    }
    hide Validate, ApplyAll;
  }

  // ---------------------------------------------------------------- deleting with a parent

  predicate DeletedWith(key: Key, parentName: string, parentType: string) {
    var kind := NormalizeSecurable(parentType);
    var depth, own := Depth(kind), Depth(key.kind);
    || (key.kind == kind && key.name == Some(parentName))
    || (depth.Some? && own.Some? && own.value > depth.value && key.name.Some?
        && StartsWith(key.name.value, parentName + "."))
  }

  function Kept(g: Store, parentName: string, parentType: string): Store {
    map k | k in g && !DeletedWith(k, parentName, parentType) :: g[k]
  }

  /** A key a route can store: a name, with as many parts as its kind asks for. */
  predicate WellFormedKey(key: Key) {
    key.name.Some? && (Depth(key.kind).Some? ==> |SplitDots(key.name.value)| == Depth(key.kind).value)
  }

  lemma NormalizedKinds()
    ensures NormalizeSecurable("CATALOG") == "CATALOG" && NormalizeSecurable("SCHEMA") == "SCHEMA"
  {
    NormalizedPlain("CATALOG");
    NormalizedPlain("SCHEMA");
    hide NormalizeSecurable;
  }

  lemma NormalizedPlain(s: string)
    requires forall k | 0 <= k < |s| :: 'A' <= s[k] <= 'Z'
    ensures NormalizeSecurable(s) == s
  {
    SplitPlain(s);
    UpperFixed(s);
    hide SplitDots, Upper;
  }

  /** The ancestors of a well-formed nested key, by their depth. */
  lemma AncestorAt(key: Key, kind: string, parentName: string)
    requires WellFormedKey(key) && Depth(kind).Some?
    ensures Key(kind, Some(parentName)) in Ancestors(key.kind, key.name.value) <==>
      && (kind == "CATALOG" || kind == "SCHEMA") && Depth(key.kind).Some? && Depth(key.kind).value > Depth(kind).value
      && FirstParts(SplitDots(key.name.value), Depth(kind).value) == parentName
  {
    hide SplitDots, FirstParts;
  }

  lemma FirstPartsPrefix(name: string, parentName: string)
    requires |SplitDots(parentName)| < |SplitDots(name)|
    ensures FirstParts(SplitDots(name), |SplitDots(parentName)|) == parentName <==> StartsWith(name, parentName + ".")
  {
    var p, n := SplitDots(parentName), SplitDots(name);
    DottedPrefix(name, parentName);
    JoinSplit(parentName);
    assert forall q | q in n[..|p|] :: q in n;
    SplitJoin(n[..|p|]);
    hide SplitDots, Join;
  }

  /**
   * Deleting with a catalog or a schema removes, among the keys the routes can store, its own key and
   * exactly those whose chain of ancestors contains it.
   */
  lemma DeletedAreDescendants(key: Key, parentName: string, kind: string)
    requires WellFormedKey(key) && (kind == "CATALOG" || kind == "SCHEMA")
    requires |SplitDots(parentName)| == Depth(kind).value
    ensures DeletedWith(key, parentName, kind) <==>
      key == Key(kind, Some(parentName)) || Key(kind, Some(parentName)) in Ancestors(key.kind, key.name.value)
  {
    NormalizedKinds();
    AncestorAt(key, kind, parentName);
    var depth, own := Depth(kind), Depth(key.kind);
    if own.Some? && own.value > depth.value {
      FirstPartsPrefix(key.name.value, parentName);
    }
    hide SplitDots, Ancestors, NormalizeSecurable, FirstParts, StartsWith;
  }

  // ---------------------------------------------------------------- the metastore is never granted

  /** Every stored key has a name, so no grant sits on the metastore itself. */
  predicate KeysWellFormed(g: Store) { forall k | k in g :: WellFormedKey(k) }

  lemma UpdateKeepsKeys(g: Store, securableType: string, fullName: string, changes: seq<Change>)
    requires KeysWellFormed(g)
    ensures KeysWellFormed(UpdatedStore(g, securableType, fullName, changes).0)
  {
    hide SplitDots, ApplyAll, Sound, Upper, NormalizeSecurable;
  }

  /** On a store without the metastore nothing is inherited from it. */
  lemma NothingFromMetastore(g: Store, chain: seq<Key>, who: string, privilege: string)
    requires KeysWellFormed(g)
    ensures Nearest(g, chain, who, privilege).Some? ==> chain[Nearest(g, chain, who, privilege).value] != METASTORE
  {
    assert METASTORE !in g;
  }

  datatype Event =
    | Update(securableType: string, fullName: string, changes: seq<Change>)
    | ParentDeleted(parentName: string, parentType: string)

  function Handle(g: Store, e: Event): Store {
    match e
    case Update(securableType, fullName, changes) => UpdatedStore(g, securableType, fullName, changes).0
    case ParentDeleted(parentName, parentType) => Kept(g, parentName, parentType)
  }

  function Run(g: Store, events: seq<Event>): Store
    decreases |events|
  {
    if events == [] then g else Run(Handle(g, events[0]), events[1..])
  }

  /** No route stores a key without a name, or a principal that holds nothing. */
  predicate Clean(g: Store) { KeysWellFormed(g) && forall k | k in g :: NoEmpty(g[k]) }

  lemma HandleKeeps(g: Store, e: Event)
    requires Clean(g)
    ensures Clean(Handle(g, e))
  {
    if e.Update? {
      UpdateKeepsKeys(g, e.securableType, e.fullName, e.changes);
      hide KeysWellFormed;
      var kind := Validate(e.securableType, e.fullName);
      if kind.Some? {
        ApplyAllMeaning(At(g, Key(kind.value, Some(e.fullName))), Sound(e.changes), "", "");
      }
      hide Validate, ApplyAll, Sound;
    }
  }

  /** Over every run of updates and deletions, and on every chain, no privilege comes from the metastore. */
  lemma {:induction false} RunClean(g: Store, events: seq<Event>)
    requires Clean(g)
    ensures Clean(Run(g, events))
    ensures forall chain, who, privilege | Nearest(Run(g, events), chain, who, privilege).Some? ::
      chain[Nearest(Run(g, events), chain, who, privilege).value] != METASTORE
    decreases |events|
  {
    if events == [] {
      forall chain, who, privilege | Nearest(g, chain, who, privilege).Some?
        ensures chain[Nearest(g, chain, who, privilege).value] != METASTORE
      {
        NothingFromMetastore(g, chain, who, privilege);
      }
    } else {
      HandleKeeps(g, events[0]);
      RunClean(Handle(g, events[0]), events[1..]);
    }
    hide Clean, Handle, Nearest;
  }

  // ---------------------------------------------------------------- updates that fail

  function Touched(c: Change): set<string> { UpperAll(c.add) + UpperAll(c.remove) }

  /** The last change that touches the privilege of its principal. */
  predicate LastTouch(changes: seq<Change>, i: nat, privilege: string) {
    && i < |changes| && privilege in Touched(changes[i])
    && forall j | i < j < |changes| :: changes[j].principal != changes[i].principal || privilege !in Touched(changes[j])
  }

  /** Every privilege the changes end up adding is held already, and none they end up removing is. */
  ghost predicate Idle(a: Assignments, changes: seq<Change>) {
    forall i: nat, privilege: string | i < |changes| && LastTouch(changes, i, privilege) && changes[i].principal.Some? ::
      Holds(a, changes[i].principal.value, privilege) <==> privilege !in UpperAll(changes[i].remove)
  }

  /** What one principal holds of one privilege is up to the last change that touches it. */
  lemma {:induction false} LastTouchDecides(a: Assignments, changes: seq<Change>, who: string, privilege: string)
    returns (i: Option<nat>)
    ensures i.Some? ==>
      && i.value < |changes| && LastTouch(changes, i.value, privilege) && changes[i.value].principal == Some(who)
      && (HeldAfter(a, changes, who, privilege) <==> privilege !in UpperAll(changes[i.value].remove))
    ensures i.None? ==>
      && (HeldAfter(a, changes, who, privilege) <==> Holds(a, who, privilege))
      && forall j | 0 <= j < |changes| :: changes[j].principal != Some(who) || privilege !in Touched(changes[j])
    decreases |changes|
  {
    hide UpperAll, Holds;
    i := None;
    if changes != [] {
      var n := |changes| - 1;
      if changes[n].principal == Some(who) && privilege in Touched(changes[n]) {
        i := Some(n);
      } else {
        i := LastTouchDecides(a, changes[..n], who, privilege);
        assert forall j | 0 <= j < n :: changes[..n][j] == changes[j];
      }
    }
  }

  lemma SameGrants(a: Assignments, b: Assignments)
    requires NoEmpty(a) && NoEmpty(b)
    ensures a == b <==> forall who, privilege :: Holds(a, who, privilege) <==> Holds(b, who, privilege)
  {
    if forall who, privilege :: Holds(a, who, privilege) <==> Holds(b, who, privilege) {
      forall who ensures (who in a <==> who in b) && (who in a ==> a[who] == b[who]) {
        if who in a {
          var p :| p in a[who];
          assert Holds(a, who, p);
        }
        if who in b {
          var p :| p in b[who];
          assert Holds(b, who, p);
        }
        if who in a && who in b {
          forall p ensures p in a[who] <==> p in b[who] {
            assert Holds(a, who, p) <==> Holds(b, who, p);
          }
        }
      }
    }
  }

  /** Changes leave the grants as they were exactly when they are idle. */
  lemma ApplyAllIdleIff(a: Assignments, changes: seq<Change>)
    requires NoEmpty(a) && forall c | c in changes :: HasPrincipal(c)
    ensures ApplyAll(a, changes) == a <==> Idle(a, changes)
  {
    hide UpperAll, Holds, ApplyAll, HeldAfter, LastTouch, NoEmpty, HasPrincipal, Touched;
    var after := ApplyAll(a, changes);
    ApplyAllMeaning(a, changes, "", "");
    SameGrants(a, after);
    if Idle(a, changes) {
      forall who, privilege ensures Holds(a, who, privilege) <==> Holds(after, who, privilege) {
        ApplyAllMeaning(a, changes, who, privilege);
        var i := LastTouchDecides(a, changes, who, privilege);
      }
    }
    if after == a {
      forall i: nat, privilege | i < |changes| && LastTouch(changes, i, privilege) && changes[i].principal.Some?
        ensures Holds(a, changes[i].principal.value, privilege) <==> privilege !in UpperAll(changes[i].remove)
      {
        ApplyAllMeaning(a, changes, changes[i].principal.value, privilege);
        LastTouchUnique(a, changes, i, privilege);
      }
    }
  }

  lemma LastTouchUnique(a: Assignments, changes: seq<Change>, i: nat, privilege: string)
    requires LastTouch(changes, i, privilege) && changes[i].principal.Some?
    ensures HeldAfter(a, changes, changes[i].principal.value, privilege) <==> privilege !in UpperAll(changes[i].remove)
  {
    hide UpperAll, HeldAfter, Holds, Touched;
    var j := LastTouchDecides(a, changes, changes[i].principal.value, privilege);
    assert j.Some?;
    assert j.value == i;
  }

  /**
   * An update that fails for want of a principal shows no trace exactly when the changes before that one are
   * idle; the store itself is the same exactly when, besides, the securable had an entry, as one is left behind.
   */
  lemma FailedUpdateIff(g: Store, securableType: string, fullName: string, changes: seq<Change>)
    requires Clean(g) && Validate(securableType, fullName).Some? && exists c :: c in changes && !HasPrincipal(c)
    ensures
      var key := Key(Validate(securableType, fullName).value, Some(fullName));
      var r := UpdatedStore(g, securableType, fullName, changes);
      && r.1 == NoPrincipal
      && (At(r.0, key) == At(g, key) <==> Idle(At(g, key), Sound(changes)))
      && (r.0 == g <==> key in g && Idle(g[key], Sound(changes)))
      && forall k | k != key :: At(r.0, k) == At(g, k)
  {
    var key := Key(Validate(securableType, fullName).value, Some(fullName));
    assert NoEmpty(At(g, key));
    ApplyAllIdleIff(At(g, key), Sound(changes));
    assert Sound(changes) != changes;
    hide Validate, ApplyAll, Sound, Idle, HasPrincipal;
    var r := UpdatedStore(g, securableType, fullName, changes);
    assert r.0 == g[key := ApplyAll(At(g, key), Sound(changes))];
    if r.0 == g {
      assert key in r.0;
    }
  }

  /** A failed update is not undone: a grant made before the change without a principal stays. */
  lemma FailedUpdateKeepsPrefix(g: Store, kind: string, name: string, who: string, privilege: string)
    requires Validate(kind, name).Some? && who != ""
    ensures
      var changes := [Change(Some(who), {privilege}, {}), Change(None, {}, {})];
      var r := UpdatedStore(g, kind, name, changes);
      r.1 == NoPrincipal && Holds(At(r.0, Key(Validate(kind, name).value, Some(name))), who, Upper(privilege))
  {
    var first, second := Change(Some(who), {privilege}, {}), Change(None, {}, {});
    var changes := [first, second];
    assert changes[1..] == [second] && Sound([second]) == [];
    assert Sound(changes) == [first];
    var before := At(g, Key(Validate(kind, name).value, Some(name)));
    assert [first][..0] == [];
    assert ApplyAll(before, [first]) == Apply(before, first);
    assert Upper(privilege) in UpperAll(first.add) && UpperAll(first.remove) == {};
    hide Validate, Upper;
  }

  // ---------------------------------------------------------------- the service

  class Service {
    var grants: Store

    constructor ()
      ensures grants == map[] && KeysWellFormed(grants)
    {
      grants := map[];
    }

    /** The changes applied one by one in place: what precedes a bad change has already happened. */
    method UpdatePermissions(securableType: string, fullName: string, changes: seq<Change>) returns (r: UpdateResult)
      modifies this
      ensures (grants, r) == UpdatedStore(old(grants), securableType, fullName, changes)
    {
      hide Validate, Apply;
      var kind := Validate(securableType, fullName);
      if kind.None? {
        return InvalidName;
      }
      var key := Key(kind.value, Some(fullName));
      ghost var before := At(grants, key);
      if key !in grants {
        grants := grants[key := map[]];
      }
      var i := 0;
      while i < |changes|
        invariant i <= |changes| && forall c | c in changes[..i] :: HasPrincipal(c)
        invariant key in grants && grants == old(grants)[key := grants[key]]
        invariant grants[key] == ApplyAll(before, changes[..i])
      {
        if !HasPrincipal(changes[i]) {
          SoundIs(changes, i);
          return NoPrincipal;
        }
        assert changes[..i + 1][..i] == changes[..i];
        assert changes[..i + 1] == changes[..i] + [changes[i]];
        grants := grants[key := Apply(grants[key], changes[i])];
        i := i + 1;
      }
      assert changes[..i] == changes;
      SoundIs(changes, i);
      if grants[key] == map[] {
        assert grants - {key} == old(grants) - {key};
        grants := grants - {key};
      }
      r := Updated;
      hide ApplyAll, Sound;
    }

    /** The privileges granted directly or on an ancestor, each tagged with the nearest source. */
    method GetEffectivePermissions(securableType: string, fullName: string) returns (r: Option<Effective>)
      ensures r.Some? <==> Validate(securableType, fullName).Some?
      ensures r.Some? ==>
        var chain := Chain(Validate(securableType, fullName).value, fullName);
        Resolves(grants, chain, |chain|, r.value)
    {
      hide Validate, Ancestors;
      var kind := Validate(securableType, fullName);
      if kind.None? {
        return None;
      }
      var chain := Chain(kind.value, fullName);
      var effective: Effective := map[];
      for k := 0 to |chain|
        invariant Resolves(grants, chain, k, effective)
      {
        effective := Absorb(effective, chain, k);
      }
      r := Some(effective);
    }

    /** One source absorbed: what is already there came from a nearer one and stays. */
    method Absorb(effective: Effective, chain: seq<Key>, k: nat) returns (r: Effective)
      requires k < |chain| && Resolves(grants, chain, k, effective)
      ensures Resolves(grants, chain, k + 1, r)
    {
      hide Nearest;
      r := effective;
      var assignments := At(grants, chain[k]);
      var source := SourceAt(chain, k);
      var principals := assignments.Keys;
      while principals != {}
        invariant principals <= assignments.Keys
        invariant Absorbed(effective, assignments, source, assignments.Keys - principals, r)
        decreases principals
      {
        var who :| who in principals;
        ghost var done, before := assignments.Keys - principals, r;
        principals := principals - {who};
        r := AbsorbPrivileges(r, who, assignments[who], source);
        assert assignments.Keys - principals == done + {who};
        AbsorbNext(effective, assignments, source, done, who, before, r);
      }
      assert assignments.Keys - principals == assignments.Keys;
      AbsorbedResolves(grants, chain, k, effective, r);
    }

    method AbsorbPrivileges(effective: Effective, who: string, privileges: set<string>, source: Source)
      returns (r: Effective)
      ensures Absorbed(effective, map[who := privileges], source, {who}, r)
    {
      r := effective;
      var pending := privileges;
      while pending != {}
        invariant pending <= privileges
        invariant Absorbed(effective, map[who := privileges - pending], source, {who}, r)
        decreases pending
      {
        var privilege :| privilege in pending;
        ghost var done, before := privileges - pending, r;
        pending := pending - {privilege};
        assert privileges - pending == done + {privilege};
        if who !in r {
          r := r[who := map[]];
        }
        if privilege !in r[who] {
          r := r[who := r[who][privilege := source]];
        }
        assert AddedOne(before, who, privilege, source, r);
        PrivilegeNext(effective, who, done, privilege, source, before, r);
      }
    }

    method DeleteGrantsForParent(parentName: string, parentType: string)
      modifies this
      ensures grants == Kept(old(grants), parentName, parentType)
    {
      hide DeletedWith;
      var pending := grants.Keys;
      while pending != {}
        invariant pending <= old(grants).Keys
        invariant forall k :: k in grants <==>
          k in old(grants) && (k in pending || !DeletedWith(k, parentName, parentType))
        invariant forall k | k in grants :: grants[k] == old(grants)[k]
        decreases pending
      {
        var key :| key in pending;
        pending := pending - {key};
        if DeletedWith(key, parentName, parentType) {
          grants := grants - {key};
        }
      }
    }
  }

  /** `after` is `e` with the assignments of the principals `done` added where `e` holds nothing yet. */
  ghost predicate Absorbed(e: Effective, a: Assignments, source: Source, done: set<string>, after: Effective) {
    forall who, privilege :: Lookup(after, who, privilege) == Addition(e, a, source, done, who, privilege)
  }

  function Addition(e: Effective, a: Assignments, source: Source, done: set<string>, who: string, privilege: string)
    : Option<Source>
  {
    if Lookup(e, who, privilege).Some? then Lookup(e, who, privilege)
    else if who in done && Holds(a, who, privilege) then Some(source)
    else None
  }

  /** `effective.setdefault(who, {}).setdefault(privilege, source)`. */
  ghost predicate AddedOne(before: Effective, who: string, privilege: string, source: Source, after: Effective) {
    forall x, p :: Lookup(after, x, p) == OneAddition(before, who, privilege, source, x, p)
  }

  function OneAddition(e: Effective, who: string, privilege: string, source: Source, x: string, p: string)
    : Option<Source>
  {
    if x == who && p == privilege && Lookup(e, x, p).None? then Some(source) else Lookup(e, x, p)
  }

  lemma PrivilegeNext(e: Effective, who: string, done: set<string>, privilege: string, source: Source,
                      before: Effective, after: Effective)
    requires Absorbed(e, map[who := done], source, {who}, before)
    requires AddedOne(before, who, privilege, source, after)
    ensures Absorbed(e, map[who := done + {privilege}], source, {who}, after)
  {
    hide Lookup;
    forall x, p ensures Lookup(after, x, p) == Addition(e, map[who := done + {privilege}], source, {who}, x, p) {
      assert Lookup(before, x, p) == Addition(e, map[who := done], source, {who}, x, p);
    }
  }

  lemma AbsorbNext(e: Effective, a: Assignments, source: Source, done: set<string>, who: string,
                   before: Effective, after: Effective)
    requires who in a && who !in done && Absorbed(e, a, source, done, before)
    requires Absorbed(before, map[who := a[who]], source, {who}, after)
    ensures Absorbed(e, a, source, done + {who}, after)
  {
    hide Lookup;
    forall x, p ensures Lookup(after, x, p) == Addition(e, a, source, done + {who}, x, p) {
      assert Lookup(before, x, p) == Addition(e, a, source, done, x, p);
      assert Lookup(after, x, p) == Addition(before, map[who := a[who]], source, {who}, x, p);
    }
  }

  lemma AbsorbedResolves(g: Store, chain: seq<Key>, k: nat, e: Effective, after: Effective)
    requires k < |chain| && Resolves(g, chain, k, e)
    requires Absorbed(e, At(g, chain[k]), SourceAt(chain, k), At(g, chain[k]).Keys, after)
    ensures Resolves(g, chain, k + 1, after)
  {
    hide Nearest, Lookup, At;
    forall who, privilege
      ensures Lookup(after, who, privilege) ==
        match Nearest(g, chain[..k + 1], who, privilege) case None => None case Some(j) => Some(SourceAt(chain, j))
    {
      NearestNext(g, chain, k, who, privilege);
      assert Lookup(e, who, privilege) ==
        match Nearest(g, chain[..k], who, privilege) case None => None case Some(j) => Some(SourceAt(chain, j));
      assert Lookup(after, who, privilege) ==
        Addition(e, At(g, chain[k]), SourceAt(chain, k), At(g, chain[k]).Keys, who, privilege);
    }
  }

  lemma {:induction false} SoundIs(changes: seq<Change>, n: nat)
    requires n <= |changes| && forall c | c in changes[..n] :: HasPrincipal(c)
    requires n < |changes| ==> !HasPrincipal(changes[n])
    ensures Sound(changes) == changes[..n]
  {
    if n > 0 {
      assert changes[..n][0] == changes[0];
      assert changes[1..][..n - 1] == changes[..n][1..];
      SoundIs(changes[1..], n - 1);
    }
  }

  lemma NearestNext(g: Store, chain: seq<Key>, k: nat, who: string, privilege: string)
    requires k < |chain|
    ensures Nearest(g, chain[..k + 1], who, privilege) ==
      var before := Nearest(g, chain[..k], who, privilege);
      if before.Some? then before else if Holds(At(g, chain[k]), who, privilege) then Some(k) else None
  {
    var a, b := chain[..k], chain[..k + 1];
    assert forall i | 0 <= i < k :: a[i] == b[i];
    assert b[k] == chain[k];
    hide Holds, At;
  }
}
