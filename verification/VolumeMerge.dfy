/** The one-time move of legacy volume uploads into the Unity Catalog volume directories. */
module VolumeMerge {
  import opened Text
  import opened VolumeTree

  const MARKER := ".legacy_volume_migration_complete"

  const VOLUMES: Path := ["volumes"]

  datatype Failure =
    | SymlinkAt(path: Path)      // a symlink on the way to, or inside, the legacy directory
    | NotADirectory(path: Path)  // the legacy path is something else
    | BothContain(path: Path)    // a path both trees hold, at least one of them not as a directory

  datatype MergeResult = Absent | Merged | Refused(failure: Failure)

  datatype Volume = Volume(catalog: string, schema: string, name: string)

  function LegacyPath(v: Volume): Path { ["dbfs", "Volumes", v.catalog, v.schema, v.name] }

  function RootPath(v: Volume): Path { ["volumes", v.catalog, v.schema, v.name] }

  /** The first symlink among the prefixes of `p` of length `from` and more. */
  function LinkOnWay(t: Tree, p: Path, from: nat): (r: Option<Path>)
    requires from <= |p| + 1
    ensures r.None? <==> forall k | from <= k <= |p| :: !(p[..k] in t && t[p[..k]] == Link)
    ensures r.Some? ==> r.value <= p && r.value in t && t[r.value] == Link
    decreases |p| + 1 - from
  {
    if from == |p| + 1 then None
    else if p[..from] in t && t[p[..from]] == Link then Some(p[..from])
    else LinkOnWay(t, p, from + 1)
  }

  /** The legacy directory can be merged: no symlink leads to it, it is a directory, nothing blocks. */
  ghost predicate Mergeable(t: Tree, legacy: Path, root: Path) {
    LinkOnWay(t, legacy, 1).None? && IsDir(t, legacy) && Passes(t, legacy, root)
  }

  /** A failure tells the truth about the tree it is raised on. */
  ghost predicate Explains(t: Tree, v: Volume, f: Failure) {
    var legacy, root := LegacyPath(v), RootPath(v);
    match f
    case SymlinkAt(p) => p in t && t[p] == Link && (p <= legacy || Below(legacy, p))
    case NotADirectory(p) => p == legacy && p in t && t[p] != Dir
    case BothContain(p) =>
      && Below(root, p) && p in t && Origin(legacy, root, p) in t
      && !(t[p] == Dir && t[Origin(legacy, root, p)] == Dir)
  }

  /** The tree after a merge that was not refused. */
  function MergedTree(t: Tree, legacy: Path, root: Path): Tree {
    if legacy in t then Moved(t, legacy, root) - {legacy} else t
  }

  class FileSystem {
    var tree: Tree

    constructor (t: Tree)
      ensures tree == t
    {
      tree := t;
    }

    // ------------------------------------------------------------ the operations of the file system

    /** `mkdir(exist_ok=True)`. */
    method MakeDirectory(p: Path)
      requires p != [] && IsDir(tree, p[..|p| - 1]) && (p in tree ==> tree[p] == Dir)
      modifies this
      ensures tree == old(tree)[p := Dir]
    {
      tree := tree[p := Dir];
    }

    /** `rmdir()`. */
    method RemoveDirectory(p: Path)
      requires IsDir(tree, p) && forall q | q in tree :: !Below(p, q)
      modifies this
      ensures tree == old(tree) - {p}
    {
      tree := tree - {p};
    }

    /** `shutil.move` of a file to a path that is free. */
    method MoveFile(p: Path, q: Path)
      requires p in tree && tree[p].File? && q != [] && q !in tree && IsDir(tree, q[..|q| - 1])
      modifies this
      ensures tree == (old(tree) - {p})[q := old(tree)[p]]
    {
      tree := (tree - {p})[q := tree[p]];
    }

    // ------------------------------------------------------------ the merge of one volume

    /** Look at the whole legacy tree before anything moves. */
    method Check(source: Path, destination: Path) returns (r: Option<Path>)
      requires WellFormed(tree)
      ensures r.None? <==> Passes(tree, source, destination)
      ensures r.Some? ==> r.value in tree && Below(source, r.value) && Blocks(tree, source, destination, r.value)
      decreases EntriesBelow(tree, source)
    {
      var pending := Children(tree, source);
      AllInChildren(tree, source);
      while pending != {}
        invariant pending <= Children(tree, source)
        invariant forall p | p in tree && Below(source, p) && p[|source|] !in pending ::
            !Blocks(tree, source, destination, p)
        decreases pending
      {
        var name :| name in pending;
        pending := pending - {name};
        var child, target := source + [name], destination + [name];
        ChildIs(tree, source, name);
        assert child[|source|..] == [name];
        if tree[child] == Link {
          return Some(child);
        }
        if target in tree && (tree[child] != Dir || tree[target] != Dir) {
          return Some(child);
        }
        assert !Blocks(tree, source, destination, child);
        if tree[child] == Dir {
          FewerBelow(tree, tree, source, name);
          r := Check(child, target);
          if r.Some? {
            BlocksChild(tree, source, destination, name, r.value);
            return;
          }
        }
        ChildClear(tree, source, destination, name);
      }
      r := None;
    }

    method MoveContents(source: Path, destination: Path)
      requires WellFormed(tree) && IsDir(tree, source) && IsDir(tree, destination) && Apart(source, destination)
      requires Passes(tree, source, destination)
      modifies this
      ensures tree == Moved(old(tree), source, destination)
      ensures WellFormed(tree)
      decreases EntriesBelow(tree, source)
    {
      hide MovedSome, Moved, WellFormed, Passes;
      ghost var before := tree;
      var all := Children(tree, source);
      var pending := all;
      MovedNone(tree, source, destination);
      while pending != {}
        invariant pending <= all
        invariant tree == MovedSome(before, source, destination, all - pending)
        decreases pending
      {
        var name :| name in pending;
        ghost var names := all - pending;
        pending := pending - {name};
        assert all - pending == names + {name};
        MoveReady(before, source, destination, names, name);
        var child, target := source + [name], destination + [name];
        if tree[child] == Dir {
          MakeDirectory(target);
          DirectoryReady(before, tree, source, destination, names, name);
          ghost var made := tree;
          MoveContents(child, target);
          DirectoryEmpty(made, child, target);
          RemoveDirectory(child);
          DirectoryMoved(before, made, source, destination, names, name);
        } else {
          FileMoved(before, source, destination, names, name);
          MoveFile(child, target);
        }
      }
      assert all - pending == all;
      MovedIs(before, source, destination);
      MovedWellFormed(before, source, destination, all);
    }

    method MergeLegacyVolume(v: Volume) returns (r: MergeResult)
      requires WellFormed(tree) && IsDir(tree, RootPath(v))
      modifies this
      ensures WellFormed(tree)
      ensures r.Absent? <==> LinkOnWay(old(tree), LegacyPath(v), 1).None? && LegacyPath(v) !in old(tree)
      ensures r.Merged? <==> Mergeable(old(tree), LegacyPath(v), RootPath(v))
      ensures r.Refused? ==> tree == old(tree) && Explains(tree, v, r.failure)
      ensures !r.Refused? ==> tree == MergedTree(old(tree), LegacyPath(v), RootPath(v))
    {
      var legacy, root := LegacyPath(v), RootPath(v);
      var link := LinkOnWay(tree, legacy, 1);
      if link.Some? {
        return Refused(SymlinkAt(link.value));
      }
      if legacy !in tree {
        return Absent;
      }
      if tree[legacy] != Dir {
        return Refused(NotADirectory(legacy));
      }
      var blocked := Check(legacy, root);
      if blocked.Some? {
        OriginBelow(root, legacy, blocked.value);
        return Refused(if tree[blocked.value] == Link then SymlinkAt(blocked.value)
                       else BothContain(root + blocked.value[|legacy|..]));
      }
      RootsApart(v, v);
      ghost var before := tree;
      MoveContents(legacy, root);
      DirectoryEmpty(before, legacy, root);
      RemoveDirectory(legacy);
      EmptyRemoved(Moved(before, legacy, root), legacy);
      r := Merged;
    }
  }

  // ---------------------------------------------------------------- when a merge is not refused

  /**
   * A legacy directory is merged exactly when it is one (no symlink leads to it then), when no symlink is below
   * it, and when whatever is below it and in the volume as well is a directory on both sides.
   */
  lemma MergeableIff(t: Tree, v: Volume)
    requires WellFormed(t)
    ensures
      var legacy := ["dbfs", "Volumes", v.catalog, v.schema, v.name];
      var root := ["volumes", v.catalog, v.schema, v.name];
      Mergeable(t, LegacyPath(v), RootPath(v)) <==>
        && legacy in t && t[legacy] == Dir
        && (forall rel | legacy + rel in t && rel != [] ::
              t[legacy + rel] != Link && (root + rel in t ==> t[legacy + rel] == Dir && t[root + rel] == Dir))
  {
    var legacy, root := LegacyPath(v), RootPath(v);
    if IsDir(t, legacy) {
      DirectoriesAbove(t, legacy, 0);
      assert legacy[..5] == legacy;
    }
    forall rel | legacy + rel in t && rel != []
      ensures Below(legacy, legacy + rel)
      ensures Blocks(t, legacy, root, legacy + rel) <==>
        t[legacy + rel] == Link || (root + rel in t && !(t[legacy + rel] == Dir && t[root + rel] == Dir))
    {
      assert (legacy + rel)[..5] == legacy && (legacy + rel)[5..] == rel;
    }
    forall p | p in t && Below(legacy, p) ensures p == legacy + p[5..] && p[5..] != [] {
    }
  }

  /** Everything on the way to a directory is a directory. */
  lemma {:induction false} DirectoriesAbove(t: Tree, p: Path, k: nat)
    requires WellFormed(t) && IsDir(t, p) && k <= |p|
    ensures forall j | k <= j <= |p| :: IsDir(t, p[..j])
    decreases |p| - k
  {
    assert p[..|p|] == p;
    if k < |p| {
      DirectoriesAbove(t, p, k + 1);
      assert IsDir(t, p[..k + 1]) && p[..k + 1][..k] == p[..k];
    }
  }

  // ---------------------------------------------------------------- lemmas of the merge

  lemma ChildIs(t: Tree, p: Path, name: string)
    requires name in Children(t, p)
    ensures p + [name] in t && Below(p, p + [name]) && (p + [name])[|p|] == name
  {
    var q :| q in t && |q| == |p| + 1 && Below(p, q) && q[|p|] == name;
    assert q == p + [name];
  }

  /** There is less below a child. */
  lemma FewerBelow(t: Tree, t2: Tree, source: Path, name: string)
    requires source + [name] in t
    requires forall q | Below(source + [name], q) :: q in t2 ==> q in t
    ensures EntriesBelow(t2, source + [name]) < EntriesBelow(t, source)
  {
    var child := source + [name];
    assert child[..|source|] == source;
    forall q | q in EntriesBelow(t2, child) ensures q in EntriesBelow(t, source) {
      BelowTrans(source, child, q);
    }
    assert child in EntriesBelow(t, source) && child !in EntriesBelow(t2, child);
  }

  lemma BlocksChild(t: Tree, source: Path, destination: Path, name: string, p: Path)
    requires p in t && Below(source + [name], p)
    ensures Below(source, p)
    ensures Blocks(t, source + [name], destination + [name], p) <==> Blocks(t, source, destination, p)
  {
    OriginChild(source, destination, name, p);
  }

  /** A child that does not block, with nothing below it that does. */
  lemma ChildClear(t: Tree, source: Path, destination: Path, name: string)
    requires WellFormed(t) && source + [name] in t
    requires Below(source, source + [name]) && !Blocks(t, source, destination, source + [name])
    requires t[source + [name]] == Dir ==> Passes(t, source + [name], destination + [name])
    ensures forall p | p in t && Below(source, p) && p[|source|] == name :: !Blocks(t, source, destination, p)
  {
    var child := source + [name];
    forall p | p in t && Below(source, p) && p[|source|] == name ensures !Blocks(t, source, destination, p) {
      BelowChild(source, name, p);
      if p != child {
        if t[child] != Dir {
          NothingBelow(t, child, p);
        } else {
          BlocksChild(t, source, destination, name, p);
        }
      }
    }
  }

  lemma MovedNone(t: Tree, source: Path, destination: Path)
    ensures MovedSome(t, source, destination, {}) == t
    ensures Children(t, source) - Children(t, source) == {}
  {
    forall q ensures q in MovedSome(t, source, destination, {}) <==> q in t {
      InMoved(t, source, destination, {}, q);
    }
  }

  /** Before a child moves: it is where it was, and its place on the other side is ready or free. */
  lemma MoveReady(t: Tree, source: Path, destination: Path, names: set<string>, name: string)
    requires WellFormed(t) && IsDir(t, destination) && Apart(source, destination) && Passes(t, source, destination)
    requires name !in names && name in Children(t, source)
    ensures var r := MovedSome(t, source, destination, names);
      var child, target := source + [name], destination + [name];
      && WellFormed(r) && child in r && child in t && r[child] == t[child] && r[child] != Link
      && target[..|target| - 1] == destination && IsDir(r, destination)
      && (target in r ==> r[target] == Dir && r[child] == Dir)
  {
    hide MovedSome, WellFormed;
    var child, target := source + [name], destination + [name];
    ChildIs(t, source, name);
    assert target[..|target| - 1] == destination && target[..|destination|] == destination;
    assert child[|source|..] == [name];
    assert !Blocks(t, source, destination, child);
    UntouchedChild(t, source, destination, names, name, child);
    UntouchedChild(t, source, destination, names, name, target);
    MovedWellFormed(t, source, destination, names);
    InMoved(t, source, destination, names, destination);
  }

  /** After a directory is made: its contents can move. */
  lemma DirectoryReady(t: Tree, t2: Tree, source: Path, destination: Path, names: set<string>, name: string)
    requires WellFormed(t) && IsDir(t, destination) && Apart(source, destination) && Passes(t, source, destination)
    requires name !in names && name in Children(t, source) && IsDir(t, source + [name])
    requires t2 == MovedSome(t, source, destination, names)[destination + [name] := Dir]
    ensures var child, target := source + [name], destination + [name];
      && WellFormed(t2) && IsDir(t2, child) && IsDir(t2, target) && Apart(child, target)
      && Passes(t2, child, target) && EntriesBelow(t2, child) < EntriesBelow(t, source)
  {
    hide MovedSome, WellFormed, Passes;
    var child, target := source + [name], destination + [name];
    var r := MovedSome(t, source, destination, names);
    MoveReady(t, source, destination, names, name);
    ApartChildren(source, destination, name, name);
    PassesChild(t, t2, source, destination, names, name);
    WellFormedWith(r, target);
    forall q | Below(child, q) ensures q in t2 ==> q in t {
      BelowChild(source, name, q);
      ApartBelow(child, target, q);
      UntouchedChild(t, source, destination, names, name, q);
    }
    FewerBelow(t, t2, source, name);
  }

  lemma WellFormedWith(t: Tree, p: Path)
    requires WellFormed(t) && p != [] && IsDir(t, p[..|p| - 1])
    ensures WellFormed(t[p := Dir])
  {
  }

  /** Once its contents have moved, a directory is empty. */
  lemma DirectoryEmpty(t: Tree, source: Path, destination: Path)
    requires WellFormed(t) && IsDir(t, source) && Apart(source, destination)
    ensures var r := Moved(t, source, destination);
      IsDir(r, source) && forall q | q in r :: !Below(source, q)
  {
    hide MovedSome, WellFormed;
    var names := Children(t, source);
    InMoved(t, source, destination, names, source);
    forall q | q in Moved(t, source, destination) ensures !Below(source, q) {
      InMoved(t, source, destination, names, q);
      if Below(source, q) {
        ApartBelow(source, destination, q);
        if q in t {
          ChildOf(t, source, q);
        }
      }
    }
  }

  lemma EmptyRemoved(t: Tree, p: Path)
    requires WellFormed(t) && p in t && p != [] && forall q | q in t :: !Below(p, q)
    ensures WellFormed(t - {p})
  {
    forall q | q in t - {p} && q != [] ensures IsDir(t - {p}, q[..|q| - 1]) {
      assert q[..|q| - 1] == p ==> Below(p, q);
    }
  }

  lemma RootsApart(v: Volume, w: Volume)
    ensures Apart(LegacyPath(v), RootPath(w))
  {
    var p, q := LegacyPath(v), RootPath(w);
    assert p[0] == "dbfs" && q[0] == "volumes";
    assert p[..|q|][0] == p[0];
  }

  lemma AllInChildren(t: Tree, p: Path)
    requires WellFormed(t)
    ensures forall q | q in t && Below(p, q) :: q[|p|] in Children(t, p)
  {
    forall q | q in t && Below(p, q) ensures q[|p|] in Children(t, p) {
      ChildOf(t, p, q);
    }
  }
}
