/** The migration over every volume, and what re-running it does. */
module VolumeMigration {
  import opened Text
  import opened VolumeTree
  import opened VolumeMerge

  const MARKER_PATH: Path := ["volumes", MARKER]

  // ---------------------------------------------------------------- several volumes at once

  /** At or below the legacy directory of a volume. */
  predicate InLegacy(q: Path) { |q| >= 5 && q[0] == "dbfs" && q[1] == "Volumes" }

  function LegacyVolume(q: Path): Volume
    requires InLegacy(q)
  {
    Volume(q[2], q[3], q[4])
  }

  /** Strictly below a volume directory. */
  predicate InRoot(q: Path) { |q| >= 5 && q[0] == "volumes" }

  function RootVolume(q: Path): Volume
    requires InRoot(q)
  {
    Volume(q[1], q[2], q[3])
  }

  function Source(q: Path): Path
    requires InRoot(q)
  {
    ["dbfs", "Volumes"] + q[1..]
  }

  predicate Goes(done: set<Volume>, q: Path) { InLegacy(q) && LegacyVolume(q) in done }

  predicate Comes(t: Tree, done: set<Volume>, q: Path) {
    InRoot(q) && RootVolume(q) in done && Source(q) in t
  }

  /** The tree once the volumes `done` are merged: the order they were merged in plays no part. */
  function MergedAll(t: Tree, done: set<Volume>): Tree {
    map q | q in t.Keys + (set p | p in t && InLegacy(p) :: VOLUMES + p[2..])
      && ((q in t && !Goes(done, q)) || Comes(t, done, q))
      :: if q in t && !Goes(done, q) then t[q] else t[Source(q)]
  }

  function Volumes(t: Tree): set<Volume> {
    set q | q in t && |q| == 4 && q[0] == "volumes" && t[q] == Dir :: Volume(q[1], q[2], q[3])
  }

  /** Merging the volume is not refused. */
  ghost predicate Accepts(t: Tree, v: Volume) {
    LinkOnWay(t, LegacyPath(v), 1).None? && (LegacyPath(v) in t ==> Mergeable(t, LegacyPath(v), RootPath(v)))
  }

  function Present(t: Tree, done: set<Volume>): set<Volume> { set v | v in done && LegacyPath(v) in t }

  // ---------------------------------------------------------------- one volume more

  lemma InMergedAll(t: Tree, done: set<Volume>, q: Path)
    ensures var r := MergedAll(t, done);
      && (q in r <==> (q in t && !Goes(done, q)) || Comes(t, done, q))
      && (q in r ==> r[q] == if q in t && !Goes(done, q) then t[q] else t[Source(q)])
  {
    if Comes(t, done, q) {
      var p := Source(q);
      assert InLegacy(p) && VOLUMES + p[2..] == q;
    }
  }

  lemma MergedNone(t: Tree)
    ensures MergedAll(t, {}) == t
  {
    forall q ensures q in MergedAll(t, {}) <==> q in t {
      InMergedAll(t, {}, q);
    }
  }

  lemma LegacyIs(v: Volume, q: Path)
    ensures (q == LegacyPath(v) || Below(LegacyPath(v), q)) <==> (InLegacy(q) && LegacyVolume(q) == v)
  {
    var p := LegacyPath(v);
    if Below(p, q) {
      assert forall k | 0 <= k < 5 :: q[k] == q[..5][k] == p[k];
    }
    if InLegacy(q) && LegacyVolume(q) == v {
      assert q[..5] == p;
    }
  }

  lemma RootIs(v: Volume, q: Path)
    ensures Below(RootPath(v), q) <==> (InRoot(q) && RootVolume(q) == v)
    ensures Below(RootPath(v), q) ==> Origin(LegacyPath(v), RootPath(v), q) == Source(q)
  {
    var p := RootPath(v);
    if Below(p, q) {
      assert forall k | 0 <= k < 4 :: q[k] == q[..4][k] == p[k];
      assert q[1..] == [v.catalog, v.schema, v.name] + q[4..];
    }
    if InRoot(q) && RootVolume(q) == v {
      assert q[..4] == p;
    }
  }

  lemma SourceIs(q: Path)
    requires InRoot(q)
    ensures InLegacy(Source(q)) && LegacyVolume(Source(q)) == RootVolume(q) && Source(q) != LegacyPath(RootVolume(q))
  {
  }

  /** Merging one more volume into the merged tree merges it into the original tree. */
  lemma OneMore(t: Tree, done: set<Volume>, v: Volume)
    requires WellFormed(t) && WellFormed(MergedAll(t, done)) && v !in done
    ensures MergedTree(MergedAll(t, done), LegacyPath(v), RootPath(v)) == MergedAll(t, done + {v})
  {
    hide MergedAll, MergedTree, WellFormed;
    var left := MergedTree(MergedAll(t, done), LegacyPath(v), RootPath(v));
    var right := MergedAll(t, done + {v});
    forall q ensures (q in left <==> q in right) && (q in left ==> left[q] == right[q]) {
      OneMoreAt(t, done, v, q);
    }
  }

  lemma OneMoreAt(t: Tree, done: set<Volume>, v: Volume, q: Path)
    requires WellFormed(t) && WellFormed(MergedAll(t, done)) && v !in done
    ensures var left := MergedTree(MergedAll(t, done), LegacyPath(v), RootPath(v));
      var right := MergedAll(t, done + {v});
      (q in left <==> q in right) && (q in left ==> left[q] == right[q])
  {
    hide MergedAll, WellFormed, Moved;
    var m, legacy, root := MergedAll(t, done), LegacyPath(v), RootPath(v);
    InMergedAll(t, done, q);
    InMergedAll(t, done + {v}, q);
    InMergedAll(t, done, legacy);
    LegacyIs(v, q);
    RootIs(v, q);
    if InRoot(q) {
      SourceIs(q);
      InMergedAll(t, done, Source(q));
      LegacyIs(v, Source(q));
    }
    if legacy in m {
      MovedIs(m, legacy, root);
      InMoved(m, legacy, root, Children(m, legacy), q);
      if Below(legacy, q) && q in m {
        ChildOf(m, legacy, q);
      }
      if Below(root, q) && Source(q) in m {
        OriginBelow(legacy, root, q);
        ChildOf(m, legacy, Source(q));
      }
    } else {
      if Below(legacy, q) {
        Orphan(m, legacy, q);
      }
      if InRoot(q) && RootVolume(q) == v {
        Orphan(m, legacy, Source(q));
      }
    }
  }

  /** Nothing lies below what does not exist. */
  lemma Orphan(t: Tree, p: Path, q: Path)
    requires WellFormed(t) && p !in t && Below(p, q)
    ensures q !in t
    decreases |q|
  {
    var up := q[..|q| - 1];
    if |q| == |p| + 1 {
      assert up == p;
    } else {
      assert up[..|p|] == p;
      Orphan(t, p, up);
    }
  }

  /** Merging some volumes does not change whether another one can be merged. */
  lemma AcceptsKept(t: Tree, done: set<Volume>, v: Volume)
    requires v !in done
    ensures Accepts(MergedAll(t, done), v) <==> Accepts(t, v)
    ensures LegacyPath(v) in MergedAll(t, done) <==> LegacyPath(v) in t
    ensures IsDir(MergedAll(t, done), RootPath(v)) <==> IsDir(t, RootPath(v))
  {
    hide MergedAll;
    var m, legacy, root := MergedAll(t, done), LegacyPath(v), RootPath(v);
    forall k | 0 <= k <= 5
      ensures legacy[..k] in m <==> legacy[..k] in t
      ensures legacy[..k] in t ==> m[legacy[..k]] == t[legacy[..k]]
    {
      InMergedAll(t, done, legacy[..k]);
    }
    assert legacy[..5] == legacy;
    InMergedAll(t, done, root);
    PassesKept(t, done, v);
    hide Passes;
  }

  lemma PassesKept(t: Tree, done: set<Volume>, v: Volume)
    requires v !in done
    ensures Passes(MergedAll(t, done), LegacyPath(v), RootPath(v)) <==> Passes(t, LegacyPath(v), RootPath(v))
  {
    hide MergedAll;
    var m, legacy, root := MergedAll(t, done), LegacyPath(v), RootPath(v);
    forall p | Below(legacy, p)
      ensures p in m <==> p in t
      ensures p in t ==> (Blocks(m, legacy, root, p) <==> Blocks(t, legacy, root, p))
    {
      LegacyIs(v, p);
      InMergedAll(t, done, p);
      var landing := root + p[|legacy|..];
      assert landing[..4] == root;
      RootIs(v, landing);
      InMergedAll(t, done, landing);
    }
  }

  // ---------------------------------------------------------------- what a migration leaves

  /**
   * Nothing is overwritten and nothing is lost: below each merged volume are the entries of both trees,
   * no file is in both, and the legacy directory is gone.
   */
  lemma DisjointUnion(t: Tree, done: set<Volume>, v: Volume, rel: Path)
    requires v in done && rel != [] && Accepts(t, v) && WellFormed(t)
    ensures var m, was, now := MergedAll(t, done), LegacyPath(v) + rel, RootPath(v) + rel;
      && (now in m <==> was in t || now in t)
      && was !in m && LegacyPath(v) !in m
      && (was in t ==> m[now] == t[was] && t[was] != Link)
      && (now in t ==> m[now] == t[now])
      && (was in t && now in t ==> t[was] == Dir && t[now] == Dir)
  {
    hide MergedAll;
    var legacy, root := LegacyPath(v), RootPath(v);
    var was, now := legacy + rel, root + rel;
    assert was[..5] == legacy && now[..4] == root;
    assert root + was[5..] == now;
    LegacyIs(v, was);
    LegacyIs(v, legacy);
    RootIs(v, now);
    assert Source(now) == was by { assert now[1..] == [v.catalog, v.schema, v.name] + rel; }
    InMergedAll(t, done, was);
    InMergedAll(t, done, now);
    InMergedAll(t, done, legacy);
    if was in t {
      if legacy !in t {
        Orphan(t, legacy, was);
      } else {
        assert !Blocks(t, legacy, root, was);
      }
    }
  }

  /** Everything outside the merged volumes stays as it is. */
  lemma ElsewhereUnchanged(t: Tree, done: set<Volume>, q: Path)
    requires !Goes(done, q) && !(InRoot(q) && RootVolume(q) in done)
    ensures var m := MergedAll(t, done); (q in m <==> q in t) && (q in t ==> m[q] == t[q])
  {
    InMergedAll(t, done, q);
  }

  // ---------------------------------------------------------------- running it again

  /** Merging again merges only what was left. */
  lemma Again(t: Tree, done: set<Volume>, all: set<Volume>)
    requires done <= all
    ensures MergedAll(MergedAll(t, done), all) == MergedAll(t, all)
  {
    hide MergedAll;
    var m := MergedAll(t, done);
    var left, right := MergedAll(m, all), MergedAll(t, all);
    forall q ensures (q in left <==> q in right) && (q in left ==> left[q] == right[q]) {
      InMergedAll(m, all, q);
      InMergedAll(t, done, q);
      InMergedAll(t, all, q);
      if InRoot(q) {
        SourceIs(q);
        InMergedAll(t, done, Source(q));
      }
    }
  }

  /** An operator's repair: some entries removed, some put in place. */
  function Repaired(t: Tree, removed: set<Path>, added: Tree): Tree { (t - removed) + added }

  /** A volume directory of `done`, or anything in one. */
  predicate AtVolume(done: set<Volume>, q: Path) { |q| >= 4 && q[0] == "volumes" && Volume(q[1], q[2], q[3]) in done }

  predicate Avoids(done: set<Volume>, q: Path) { !Goes(done, q) && !AtVolume(done, q) }

  /** A repair that leaves the merged volumes alone can be made before or after they are merged. */
  lemma RepairCommutes(t: Tree, done: set<Volume>, removed: set<Path>, added: Tree)
    requires forall q | q in removed || q in added :: Avoids(done, q)
    ensures Repaired(MergedAll(t, done), removed, added) == MergedAll(Repaired(t, removed, added), done)
  {
    hide MergedAll;
    var left, right := Repaired(MergedAll(t, done), removed, added), MergedAll(Repaired(t, removed, added), done);
    forall q ensures (q in left <==> q in right) && (q in left ==> left[q] == right[q]) {
      InMergedAll(t, done, q);
      InMergedAll(Repaired(t, removed, added), done, q);
      if InRoot(q) {
        SourceIs(q);
      }
    }
  }

  // ---------------------------------------------------------------- the migration itself

  datatype Outcome =
    | Migrated(count: nat)
    | Stopped(failure: Failure)
    | NoVolumesDirectory  // `volumes` exists and is no directory

  /** Where a migration stands: `done` of the volumes of `base` are merged. */
  ghost predicate Progress(base: Tree, t: Tree, done: set<Volume>) {
    && WellFormed(base) && WellFormed(t) && t == MergedAll(base, done)
    && done <= Volumes(base) && forall v | v in done :: Accepts(base, v)
  }

  lemma VolumeIs(t: Tree, v: Volume)
    ensures v in Volumes(t) <==> IsDir(t, RootPath(v))
  {
    var p := RootPath(v);
    if v in Volumes(t) {
      var q :| q in t && |q| == 4 && q[0] == "volumes" && t[q] == Dir && Volume(q[1], q[2], q[3]) == v;
      assert q == p;
    }
    if IsDir(t, p) {
      assert Volume(p[1], p[2], p[3]) == v;
    }
  }

  /** The volumes of a migration, level by level. */
  lemma VolumeLevels(base: Tree, t: Tree, done: set<Volume>, v: Volume)
    requires Progress(base, t, done)
    ensures v in Volumes(base) <==> IsDir(t, RootPath(v))
    ensures v in Volumes(base) ==>
      && v.catalog in Children(t, VOLUMES) && IsDir(t, VOLUMES + [v.catalog])
      && v.schema in Children(t, VOLUMES + [v.catalog]) && IsDir(t, VOLUMES + [v.catalog, v.schema])
      && v.name in Children(t, VOLUMES + [v.catalog, v.schema])
    ensures VOLUMES + [v.catalog, v.schema, v.name] == RootPath(v)
  {
    hide MergedAll, WellFormed, Children, Accepts;
    VolumeIs(base, v);
    InMergedAll(base, done, RootPath(v));
    if IsDir(t, RootPath(v)) {
      RootLevels(t, v);
    }
  }

  lemma RootLevels(t: Tree, v: Volume)
    requires WellFormed(t) && IsDir(t, RootPath(v))
    ensures v.catalog in Children(t, VOLUMES) && IsDir(t, VOLUMES + [v.catalog])
    ensures v.schema in Children(t, VOLUMES + [v.catalog]) && IsDir(t, VOLUMES + [v.catalog, v.schema])
    ensures v.name in Children(t, VOLUMES + [v.catalog, v.schema])
  {
    hide WellFormed, Children;
    var p := RootPath(v);
    var a, b := VOLUMES + [v.catalog], VOLUMES + [v.catalog, v.schema];
    assert p[..1] == VOLUMES && p[..2] == a && p[..3] == b;
    ChildOf(t, VOLUMES, p);
    ChildOf(t, a, p);
    ChildOf(t, b, p);
    assert VOLUMES + [p[1]] == a && a + [p[2]] == b;
  }

  /** One volume of the loop: what stays to be known of the base tree. */
  lemma VolumeReady(base: Tree, t: Tree, done: set<Volume>, v: Volume)
    requires Progress(base, t, done) && v in Volumes(base) && v !in done
    ensures IsDir(t, RootPath(v)) && (Accepts(t, v) <==> Accepts(base, v))
    ensures LegacyPath(v) in t <==> LegacyPath(v) in base
    ensures MergedTree(t, LegacyPath(v), RootPath(v)) == MergedAll(base, done + {v})
    ensures Present(base, done + {v}) == Present(base, done) + (if LegacyPath(v) in base then {v} else {})
    ensures |Present(base, done + {v})| == |Present(base, done)| + (if LegacyPath(v) in base then 1 else 0)
  {
    hide MergedAll, MergedTree, WellFormed, Accepts;
    VolumeIs(base, v);
    AcceptsKept(base, done, v);
    OneMore(base, done, v);
  }

  lemma AcceptsIs(t: Tree, v: Volume)
    ensures Accepts(t, v) <==>
      Mergeable(t, LegacyPath(v), RootPath(v)) || (LinkOnWay(t, LegacyPath(v), 1).None? && LegacyPath(v) !in t)
    ensures Mergeable(t, LegacyPath(v), RootPath(v)) ==> LegacyPath(v) in t
  {
  }

  /** The volumes of a catalog, and of one of its schemas. */
  function InCatalog(vs: set<Volume>, catalog: string): set<Volume> { set v | v in vs && v.catalog == catalog }

  function InSchema(vs: set<Volume>, catalog: string, schema: string): set<Volume> {
    set v | v in vs && v.catalog == catalog && v.schema == schema
  }

  /** A failure at a volume of `base` that is not merged yet. */
  ghost predicate StuckAt(base: Tree, t: Tree, done: set<Volume>, failure: Failure, v: Volume) {
    v in Volumes(base) - done && !Accepts(base, v) && Explains(t, v, failure)
  }

  /** One volume: merged, or the migration stops there with the tree as it was. */
  method MigrateVolume(files: FileSystem, v: Volume, migrated: nat, ghost base: Tree, ghost done: set<Volume>)
    returns (count: nat, failure: Option<Failure>)
    requires Progress(base, files.tree, done) && migrated == |Present(base, done)|
    requires v in Volumes(base) && v !in done
    modifies files
    ensures failure.None? ==> Progress(base, files.tree, done + {v}) && count == |Present(base, done + {v})|
    ensures failure.Some? ==> Progress(base, files.tree, done) && StuckAt(base, files.tree, done, failure.value, v)
  {
    hide MergedAll, MergedTree, WellFormed, Accepts, Mergeable, Explains, Volumes, Present;
    VolumeReady(base, files.tree, done, v);
    AcceptsIs(files.tree, v);
    count, failure := migrated, None;
    var r := files.MergeLegacyVolume(v);
    if r.Refused? {
      failure := Some(r.failure);
    } else if r.Merged? {
      count := count + 1;
    }
  }

  /** The innermost loop: the volumes of one schema. */
  method MigrateSchema(files: FileSystem, catalog: string, schema: string, migrated: nat,
                       ghost base: Tree, ghost before: set<Volume>)
    returns (count: nat, failure: Option<Failure>, ghost done: set<Volume>, ghost stuck: Volume)
    requires Progress(base, files.tree, before) && migrated == |Present(base, before)|
    requires InSchema(before, catalog, schema) == {}
    modifies files
    ensures Progress(base, files.tree, done)
    ensures failure.None? ==>
      count == |Present(base, done)| && done == before + InSchema(Volumes(base), catalog, schema)
    ensures failure.Some? ==> StuckAt(base, files.tree, done, failure.value, stuck)
  {
    hide MergedAll, WellFormed, Accepts, Explains, Volumes, Present, Progress, StuckAt;
    count, failure, done := migrated, None, before;
    stuck := Volume(catalog, schema, "");
    var folder := VOLUMES + [catalog, schema];
    var pending := Children(files.tree, folder);
    forall v | v in Volumes(base) && v.catalog == catalog && v.schema == schema ensures v.name in pending {
      VolumeLevels(base, files.tree, done, v);
    }
    assert forall v | v in InSchema(Volumes(base), catalog, schema) :: v.name in pending;
    while pending != {}
      invariant failure.None?
      invariant Progress(base, files.tree, done) && count == |Present(base, done)|
      invariant forall v | v in InSchema(done, catalog, schema) :: v.name !in pending
      invariant done <= before + InSchema(Volumes(base), catalog, schema) && before <= done
      invariant forall v | v in InSchema(Volumes(base), catalog, schema) :: v.name in pending || v in done
      decreases pending
    {
      var name :| name in pending;
      pending := pending - {name};
      var v := Volume(catalog, schema, name);
      VolumeLevels(base, files.tree, done, v);
      assert folder + [name] == RootPath(v);
      if folder + [name] in files.tree && files.tree[folder + [name]] == Dir {
        count, failure := MigrateVolume(files, v, count, base, done);
        if failure.Some? {
          stuck := v;
          return;
        }
        done := done + {v};
      }
    }
  }

  /** The middle loop: the schemas of one catalog. */
  method MigrateCatalog(files: FileSystem, catalog: string, migrated: nat, ghost base: Tree, ghost before: set<Volume>)
    returns (count: nat, failure: Option<Failure>, ghost done: set<Volume>, ghost stuck: Volume)
    requires Progress(base, files.tree, before) && migrated == |Present(base, before)|
    requires InCatalog(before, catalog) == {}
    modifies files
    ensures Progress(base, files.tree, done)
    ensures failure.None? ==> count == |Present(base, done)| && done == before + InCatalog(Volumes(base), catalog)
    ensures failure.Some? ==> StuckAt(base, files.tree, done, failure.value, stuck)
  {
    hide MergedAll, WellFormed, Accepts, Explains, Volumes, Present, Progress, StuckAt;
    count, failure, done := migrated, None, before;
    stuck := Volume(catalog, "", "");
    var folder := VOLUMES + [catalog];
    var pending := Children(files.tree, folder);
    forall v | v in Volumes(base) && v.catalog == catalog ensures v.schema in pending {
      VolumeLevels(base, files.tree, done, v);
    }
    while pending != {}
      invariant failure.None?
      invariant Progress(base, files.tree, done) && count == |Present(base, done)|
      invariant forall v | v in InCatalog(done, catalog) :: v.schema !in pending
      invariant done <= before + InCatalog(Volumes(base), catalog) && before <= done
      invariant forall v | v in InCatalog(Volumes(base), catalog) :: v.schema in pending || v in done
      decreases pending
    {
      var schema :| schema in pending;
      pending := pending - {schema};
      assert folder + [schema] == VOLUMES + [catalog, schema];
      assert forall v | v in InCatalog(Volumes(base), catalog) && v.schema == schema ::
          v in InSchema(Volumes(base), catalog, schema);
      forall v | v in InSchema(Volumes(base), catalog, schema) ensures IsDir(files.tree, folder + [schema]) {
        VolumeLevels(base, files.tree, done, v);
      }
      if folder + [schema] in files.tree && files.tree[folder + [schema]] == Dir {
        count, failure, done, stuck := MigrateSchema(files, catalog, schema, count, base, done);
        if failure.Some? {
          return;
        }
      }
    }
  }

  lemma NoneDone(base: Tree)
    requires WellFormed(base)
    ensures Progress(base, base, {}) && |Present(base, {})| == 0
  {
    MergedNone(base);
    assert Present(base, {}) == {};
    hide MergedAll, WellFormed;
  }

  /** The whole pass over the catalogs. */
  method MigrateVolumes(files: FileSystem, ghost base: Tree)
    returns (count: nat, failure: Option<Failure>, ghost done: set<Volume>, ghost stuck: Volume)
    requires WellFormed(base) && files.tree == base
    modifies files
    ensures Progress(base, files.tree, done)
    ensures failure.None? ==> count == |Present(base, done)| && done == Volumes(base)
    ensures failure.Some? ==> StuckAt(base, files.tree, done, failure.value, stuck)
  {
    hide MergedAll, WellFormed, Accepts, Explains, Volumes, Present, StuckAt, Progress;
    count, failure, done := 0, None, {};
    stuck := Volume("", "", "");
    NoneDone(base);
    var pending := Children(files.tree, VOLUMES);
    forall v | v in Volumes(base) ensures v.catalog in pending {
      VolumeLevels(base, files.tree, done, v);
    }
    while pending != {}
      invariant failure.None?
      invariant Progress(base, files.tree, done) && count == |Present(base, done)|
      invariant forall v | v in done :: v.catalog !in pending
      invariant done <= Volumes(base)
      invariant forall v | v in Volumes(base) :: v.catalog in pending || v in done
      decreases pending
    {
      var catalog :| catalog in pending;
      pending := pending - {catalog};
      assert forall v | v in Volumes(base) && v.catalog == catalog :: v in InCatalog(Volumes(base), catalog);
      forall v | v in InCatalog(Volumes(base), catalog) ensures IsDir(files.tree, VOLUMES + [catalog]) {
        VolumeLevels(base, files.tree, done, v);
      }
      if VOLUMES + [catalog] in files.tree && files.tree[VOLUMES + [catalog]] == Dir {
        count, failure, done, stuck := MigrateCatalog(files, catalog, count, base, done);
        if failure.Some? {
          return;
        }
      }
    }
  }

  /** The tree a pass works on: `volumes` made when it is missing. */
  function Base(t: Tree): Tree { t[VOLUMES := Dir] }

  /**
   * What a pass over `t` comes to: nothing when the marker is there; every volume merged and the marker left
   * when every volume can be merged; else it stops at a volume that cannot, with some others merged and no marker.
   */
  ghost predicate Pass(t: Tree, r: Outcome, done: set<Volume>, after: Tree) {
    var base := Base(t);
    if MARKER_PATH in t then r == Migrated(0) && after == t
    else if VOLUMES in t && t[VOLUMES] != Dir then r == NoVolumesDirectory && after == t
    else
      && done <= Volumes(base) && (forall v | v in done :: Accepts(base, v))
      && (r.Migrated? <==> forall v | v in Volumes(base) :: Accepts(base, v))
      && match r
         case Migrated(count) =>
           && done == Volumes(base) && count == |Present(base, done)|
           && after == MergedAll(base, done)[MARKER_PATH := File("")]
         case Stopped(failure) =>
           && after == MergedAll(base, done) && MARKER_PATH !in after
           && exists v :: StuckAt(base, after, done, failure, v)
         case NoVolumesDirectory => false
  }

  /** The end of a pass over the catalogs is the end of a migration. */
  lemma PassOver(t: Tree, after: Tree, done: set<Volume>, count: nat, failure: Option<Failure>, stuck: Volume)
    requires MARKER_PATH !in t && (VOLUMES in t ==> t[VOLUMES] == Dir) && Progress(Base(t), after, done)
    requires failure.None? ==> count == |Present(Base(t), done)| && done == Volumes(Base(t))
    requires failure.Some? ==> StuckAt(Base(t), after, done, failure.value, stuck)
    ensures failure.None? ==> Pass(t, Migrated(count), done, after[MARKER_PATH := File("")])
    ensures failure.Some? ==> Pass(t, Stopped(failure.value), done, after)
  {
    hide MergedAll, Accepts, Explains, Volumes, Present, WellFormed;
    InMergedAll(Base(t), done, MARKER_PATH);
  }

  /** The migration. */
  method MigrateLegacyVolumeData(files: FileSystem) returns (r: Outcome, ghost done: set<Volume>)
    requires WellFormed(files.tree)
    modifies files
    ensures Pass(old(files.tree), r, done, files.tree)
  {
    hide MergedAll, Accepts, Explains, Volumes, Present, StuckAt, Progress;
    done := {};
    if MARKER_PATH in files.tree {
      return Migrated(0), done;
    }
    if VOLUMES in files.tree && files.tree[VOLUMES] != Dir {
      return NoVolumesDirectory, done;
    }
    ghost var base := Base(files.tree);
    assert VOLUMES[..0] == [];
    WellFormedWith(files.tree, VOLUMES);
    files.MakeDirectory(VOLUMES);
    var count, failure;
    ghost var stuck;
    count, failure, done, stuck := MigrateVolumes(files, base);
    PassOver(old(files.tree), files.tree, done, count, failure, stuck);
    hide Pass;
    if failure.Some? {
      return Stopped(failure.value), done;
    }
    files.tree := files.tree[MARKER_PATH := File("")];
    r := Migrated(count);
  }

  // ---------------------------------------------------------------- stopped, repaired, run again

  lemma VolumesKept(t: Tree, done: set<Volume>)
    ensures Volumes(MergedAll(t, done)) == Volumes(t)
  {
    hide MergedAll;
    forall v ensures v in Volumes(MergedAll(t, done)) <==> v in Volumes(t) {
      VolumeIs(t, v);
      VolumeIs(MergedAll(t, done), v);
      InMergedAll(t, done, RootPath(v));
    }
  }

  lemma BaseKept(t: Tree, done: set<Volume>)
    ensures Base(MergedAll(t, done)) == MergedAll(Base(t), done)
  {
    hide MergedAll;
    var left, right := Base(MergedAll(t, done)), MergedAll(Base(t), done);
    forall q ensures (q in left <==> q in right) && (q in left ==> left[q] == right[q]) {
      InMergedAll(t, done, q);
      InMergedAll(Base(t), done, q);
    }
  }

  /** A pass can only stop where `volumes` is a directory already. */
  lemma StoppedIn(t: Tree, r: Outcome, done: set<Volume>, after: Tree)
    requires WellFormed(t) && Pass(t, r, done, after) && r.Stopped?
    ensures Base(t) == t && MARKER_PATH !in t && after == MergedAll(t, done)
    ensures done <= Volumes(t) && forall v | v in done :: Accepts(t, v)
  {
    hide MergedAll, Accepts, Explains, Volumes, Present, WellFormed;
    if VOLUMES !in t {
      var v :| StuckAt(Base(t), after, done, r.failure, v);
      VolumeIs(Base(t), v);
      assert RootPath(v)[..1] == VOLUMES;
      Orphan(t, VOLUMES, RootPath(v));
    }
  }

  /** The directories above an entry are no symlinks. */
  lemma NoLinkAbove(t: Tree, v: Volume)
    requires WellFormed(t) && IsDir(t, LegacyPath(v))
    ensures LinkOnWay(t, LegacyPath(v), 1).None?
  {
    var p := LegacyPath(v);
    assert p[..5] == p && p[..4][..3] == p[..3] && p[..3][..2] == p[..2] && p[..2][..1] == p[..1];
    assert IsDir(t, p[..4]);
    assert IsDir(t, p[..3]);
    assert IsDir(t, p[..2]);
    assert IsDir(t, p[..1]);
  }

  /** The legacy directory of a merged volume could be merged, and still can after the repair. */
  lemma AcceptsRepaired(t: Tree, s: Tree, done: set<Volume>, v: Volume)
    requires v in done && Accepts(t, v) && WellFormed(s) && LegacyPath(v) in s
    requires forall q | !Avoids(done, q) :: (q in s <==> q in t) && (q in s ==> s[q] == t[q])
    ensures Accepts(s, v)
  {
    var legacy, root := LegacyPath(v), RootPath(v);
    assert !Avoids(done, legacy);
    NoLinkAbove(s, v);
    hide WellFormed;
    forall p | p in s && Below(legacy, p) ensures !Blocks(s, legacy, root, p) {
      LegacyIs(v, p);
      assert !Avoids(done, p);
      var landing := root + p[|legacy|..];
      LandingIn(v, done, p);
      assert !Blocks(t, legacy, root, p);
    }
  }

  lemma LandingIn(v: Volume, done: set<Volume>, p: Path)
    requires v in done && Below(LegacyPath(v), p)
    ensures !Avoids(done, RootPath(v) + p[5..])
  {
    var landing := RootPath(v) + p[5..];
    assert landing[..4] == RootPath(v);
    assert landing[0] == "volumes" && landing[1] == v.catalog && landing[2] == v.schema && landing[3] == v.name;
  }

  /** Merged volumes are accepted again; whether another one is does not change. */
  lemma AcceptsAgain(t: Tree, done: set<Volume>, v: Volume)
    requires v in done && LegacyPath(v) in t ==> Accepts(t, v)
    ensures Accepts(MergedAll(t, done), v) <==> Accepts(t, v)
  {
    hide MergedAll, Passes;
    if v !in done {
      AcceptsKept(t, done, v);
    } else {
      var m, legacy := MergedAll(t, done), LegacyPath(v);
      assert legacy[..5] == legacy;
      forall k | 0 <= k <= 5
        ensures k < 5 ==> (legacy[..k] in m <==> legacy[..k] in t)
        ensures k < 5 && legacy[..k] in t ==> m[legacy[..k]] == t[legacy[..k]]
        ensures k == 5 ==> legacy[..k] !in m
      {
        InMergedAll(t, done, legacy[..k]);
      }
    }
  }

  lemma VolumesAbove(t: Tree, v: Volume)
    requires WellFormed(t) && IsDir(t, RootPath(v))
    ensures IsDir(t, VOLUMES)
  {
    var p := RootPath(v);
    assert p[..3][..2] == p[..2] && p[..2][..1] == p[..1] == VOLUMES;
    assert IsDir(t, p[..3]);
    assert IsDir(t, p[..2]);
  }

  /** What the second pass finds, as against a single pass after the repair. */
  lemma RepairedFinds(t: Tree, done: set<Volume>, removed: set<Path>, added: Tree)
    requires forall v | v in done :: Accepts(t, v)
    requires done <= Volumes(t) && WellFormed(Repaired(t, removed, added))
    requires forall q | q in removed || q in added :: Avoids(done, q)
    ensures var again, once := Base(Repaired(MergedAll(t, done), removed, added)), Base(Repaired(t, removed, added));
      && again == MergedAll(once, done) && Volumes(again) == Volumes(once) && done <= Volumes(once)
      && (forall v :: Accepts(again, v) <==> Accepts(once, v))
  {
    hide MergedAll, Accepts, Volumes, WellFormed;
    var s := Repaired(t, removed, added);
    var once := Base(s);
    RepairCommutes(t, done, removed, added);
    BaseKept(s, done);
    VolumesKept(once, done);
    forall v | v in done ensures v in Volumes(once) && IsDir(s, RootPath(v)) {
      VolumeIs(t, v);
      assert !Avoids(done, RootPath(v));
      VolumeIs(once, v);
    }
    forall v ensures Accepts(MergedAll(once, done), v) <==> Accepts(once, v) {
      if v in done && LegacyPath(v) in once {
        VolumesAbove(s, v);
        assert once == s;
        AcceptsRepaired(t, once, done, v);
      }
      AcceptsAgain(once, done, v);
    }
  }

  /** What was still to be merged is what the first pass had not merged. */
  lemma PresentSplits(t: Tree, done: set<Volume>, all: set<Volume>)
    requires done <= all
    ensures |Present(MergedAll(t, done), all)| + |Present(t, done)| == |Present(t, all)|
  {
    hide MergedAll;
    forall v ensures v in done ==> LegacyPath(v) !in MergedAll(t, done)
             ensures v !in done ==> (LegacyPath(v) in MergedAll(t, done) <==> LegacyPath(v) in t)
    {
      LegacyIs(v, LegacyPath(v));
      InMergedAll(t, done, LegacyPath(v));
    }
    var left, before := Present(MergedAll(t, done), all), Present(t, done);
    assert left !! before && left + before == Present(t, all);
  }

  /**
   * A pass that stopped, with the tree repaired and the pass run again: it succeeds exactly when a single
   * pass would have had the repair come first, and then leaves the same tree, marker included, having merged
   * exactly the volumes that were left.
   */
  lemma RunAgain(t: Tree, first: Outcome, done: set<Volume>, stopped: Tree, removed: set<Path>, added: Tree,
                 again: Outcome, doneAgain: set<Volume>, after: Tree,
                 once: Outcome, doneOnce: set<Volume>, single: Tree)
    requires WellFormed(t) && Pass(t, first, done, stopped) && first.Stopped?
    requires forall q | q in removed || q in added :: Avoids(done, q)
    requires WellFormed(Repaired(t, removed, added))
    requires Pass(Repaired(stopped, removed, added), again, doneAgain, after)
    requires Pass(Repaired(t, removed, added), once, doneOnce, single)
    ensures again.Migrated? <==> once.Migrated?
    ensures again.Stopped? <==> once.Stopped?
    ensures again.Migrated? && MARKER_PATH !in added ==>
      && after == single && MARKER_PATH in single && doneAgain == doneOnce
      && again.count + |Present(Repaired(t, removed, added), done)| == once.count
  {
    hide MergedAll, Accepts, Explains, Volumes, Present, WellFormed;
    var s, u := Repaired(t, removed, added), Repaired(stopped, removed, added);
    StoppedIn(t, first, done, stopped);
    RepairCommutes(t, done, removed, added);
    InMergedAll(s, done, MARKER_PATH);
    InMergedAll(s, done, VOLUMES);
    RepairedFinds(t, done, removed, added);
    if again.Migrated? && MARKER_PATH !in added {
      Again(Base(s), done, Volumes(Base(s)));
      PresentSplits(Base(s), done, Volumes(Base(s)));
      PresentInBase(s, done);
    }
  }

  lemma PresentInBase(t: Tree, done: set<Volume>)
    ensures Present(Base(t), done) == Present(t, done)
  {
  }
}
