/** A file tree, and the merge of one legacy directory into a volume directory. */
module VolumeTree {
  import opened Text

  type Path = seq<string>

  datatype Node = File(content: string) | Dir | Link

  type Tree = map<Path, Node>

  // ---------------------------------------------------------------- paths

  /** `q` lies strictly below `p`. */
  predicate Below(p: Path, q: Path) { |p| < |q| && q[..|p|] == p }

  predicate Apart(p: Path, q: Path) { p != q && !Below(p, q) && !Below(q, p) }

  predicate IsDir(t: Tree, p: Path) { p in t && t[p] == Dir }

  /** Every entry but the root sits in a directory. */
  ghost predicate WellFormed(t: Tree) {
    && IsDir(t, [])
    && forall p | p in t && p != [] :: IsDir(t, p[..|p| - 1])
  }

  /** `iterdir()`: the names of the entries directly in a directory, in no particular order. */
  function Children(t: Tree, p: Path): set<string> {
    set q | q in t && |q| == |p| + 1 && Below(p, q) :: q[|p|]
  }

  function EntriesBelow(t: Tree, p: Path): set<Path> { set q | q in t && Below(p, q) }

  // ---------------------------------------------------------------- the preflight check

  /** What stops a merge at one legacy entry: it is a symlink, or both trees hold it and one is no directory. */
  predicate Blocks(t: Tree, source: Path, destination: Path, p: Path)
    requires p in t && Below(source, p)
  {
    var target := destination + p[|source|..];
    t[p] == Link || (target in t && !(t[p] == Dir && t[target] == Dir))
  }

  ghost predicate Passes(t: Tree, source: Path, destination: Path) {
    forall p | p in t && Below(source, p) :: !Blocks(t, source, destination, p)
  }

  // ---------------------------------------------------------------- the merged tree

  /** The legacy entry that lands on `q`. */
  function Origin(source: Path, destination: Path, q: Path): Path
    requires Below(destination, q)
  {
    source + q[|destination|..]
  }

  predicate Arrives(t: Tree, source: Path, destination: Path, names: set<string>, q: Path) {
    Below(destination, q) && q[|destination|] in names && Origin(source, destination, q) in t
  }

  predicate Leaves(source: Path, names: set<string>, q: Path) { Below(source, q) && q[|source|] in names }

  function Arrivals(t: Tree, source: Path, destination: Path, names: set<string>): (r: set<Path>)
    ensures forall q :: q in r <==> Arrives(t, source, destination, names, q)
  {
    var r := set p | p in t && Leaves(source, names, p) :: destination + p[|source|..];
    ArrivalsAre(t, source, destination, names, r);
    r
  }

  lemma ArrivalsAre(t: Tree, source: Path, destination: Path, names: set<string>, r: set<Path>)
    requires r == set p | p in t && Leaves(source, names, p) :: destination + p[|source|..]
    ensures forall q :: q in r <==> Arrives(t, source, destination, names, q)
  {
    forall q ensures q in r <==> Arrives(t, source, destination, names, q) {
      if q in r {
        var p :| p in t && Leaves(source, names, p) && q == destination + p[|source|..];
        assert q[..|destination|] == destination && q[|destination|..] == p[|source|..];
        assert Origin(source, destination, q) == p;
      }
      if Arrives(t, source, destination, names, q) {
        var p := Origin(source, destination, q);
        assert p[..|source|] == source && p[|source|..] == q[|destination|..];
        assert Leaves(source, names, p) && q == destination + p[|source|..];
      }
    }
  }

  /** The tree once the children `names` of `source` have moved, with everything below them. */
  function MovedSome(t: Tree, source: Path, destination: Path, names: set<string>): Tree {
    map q | q in t.Keys + Arrivals(t, source, destination, names)
      && ((q in t && !Leaves(source, names, q)) || Arrives(t, source, destination, names, q))
      :: if q in t && !Leaves(source, names, q) then t[q] else t[Origin(source, destination, q)]
  }

  /** The tree once everything below `source` has moved. */
  function Moved(t: Tree, source: Path, destination: Path): Tree {
    MovedSome(t, source, destination, Children(t, source))
  }

  // ---------------------------------------------------------------- path lemmas

  lemma BelowTrans(p: Path, q: Path, r: Path)
    requires Below(p, q) && Below(q, r)
    ensures Below(p, r) && r[|p|] == q[|p|]
  {
    assert r[..|p|] == r[..|q|][..|p|];
    assert r[|p|] == r[..|q|][|p|];
  }

  /** What lies below a child, told by the name at the child's position. */
  lemma BelowChild(p: Path, name: string, q: Path)
    ensures (q == p + [name] || Below(p + [name], q)) <==> (Below(p, q) && q[|p|] == name)
  {
    var c := p + [name];
    if Below(p, q) && q[|p|] == name {
      assert q[..|c|] == c;
      if |q| == |c| {
        assert q == c;
      }
    }
    if Below(c, q) {
      assert q[..|p|] == q[..|c|][..|p|] == p;
      assert q[|p|] == q[..|c|][|p|];
    }
  }

  lemma ApartBelow(p: Path, q: Path, x: Path)
    requires Apart(p, q) && Below(p, x)
    ensures x != q && Apart(x, q) && !Below(q, x)
  {
    Comparable(p, q, x);
    if Below(x, q) {
      BelowTrans(p, x, q);
    }
  }

  lemma Comparable(p: Path, q: Path, x: Path)
    ensures Below(p, x) && Below(q, x) ==> p == q || Below(p, q) || Below(q, p)
  {
    if Below(p, x) && Below(q, x) {
      assert forall k | 0 <= k < |p| :: p[k] == x[..|p|][k] == x[k];
      assert forall k | 0 <= k < |q| :: q[k] == x[..|q|][k] == x[k];
      assert if |p| <= |q| then q[..|p|] == p else p[..|q|] == q;
    }
  }

  lemma ApartChildren(p: Path, q: Path, a: string, b: string)
    requires Apart(p, q)
    ensures Apart(p + [a], q + [b])
  {
    var x, y := p + [a], q + [b];
    assert x[..|p|] == p && y[..|q|] == q;
    ApartBelow(p, q, x);
    ApartSym(x, q);
    ApartBelow(q, x, y);
  }

  lemma ApartSym(p: Path, q: Path)
    requires Apart(p, q)
    ensures Apart(q, p)
  {
  }

  /** An entry below a path comes with the child it is in. */
  lemma ChildOf(t: Tree, p: Path, q: Path)
    requires WellFormed(t) && q in t && Below(p, q)
    ensures p + [q[|p|]] in t && q[|p|] in Children(t, p)
    ensures q != p + [q[|p|]] ==> IsDir(t, p + [q[|p|]])
    decreases |q|
  {
    if |q| == |p| + 1 {
      assert q == p + [q[|p|]];
    } else {
      var up := q[..|q| - 1];
      assert up[..|p|] == p && up[|p|] == q[|p|];
      ChildOf(t, p, up);
    }
  }

  /** Nothing lies below an entry that is no directory. */
  lemma NothingBelow(t: Tree, p: Path, q: Path)
    requires WellFormed(t) && p in t && t[p] != Dir && Below(p, q)
    ensures q !in t
    decreases |q|
  {
    var up := q[..|q| - 1];
    if |q| == |p| + 1 {
      assert up == p;
    } else {
      assert up[..|p|] == p;
      NothingBelow(t, p, up);
    }
  }

  // ---------------------------------------------------------------- what a step of the move keeps

  lemma ArrivesParent(t: Tree, source: Path, destination: Path, names: set<string>, q: Path)
    requires Arrives(t, source, destination, names, q) && |q| > |destination| + 1
    requires WellFormed(t)
    ensures var up := q[..|q| - 1];
      Arrives(t, source, destination, names, up) && IsDir(t, Origin(source, destination, up))
  {
    var up := q[..|q| - 1];
    assert up[..|destination|] == destination && up[|destination|] == q[|destination|];
    var o := Origin(source, destination, q);
    assert o[..|o| - 1] == Origin(source, destination, up);
  }

  lemma OriginBelow(source: Path, destination: Path, q: Path)
    requires Below(destination, q)
    ensures var o := Origin(source, destination, q);
      Below(source, o) && o[|source|] == q[|destination|] && destination + o[|source|..] == q
  {
    var o := Origin(source, destination, q);
    assert o[..|source|] == source && o[|source|..] == q[|destination|..];
    assert o[|source|] == o[|source|..][0] == q[|destination|..][0];
  }

  /** What `MovedSome` holds at one path. */
  lemma InMoved(t: Tree, source: Path, destination: Path, names: set<string>, q: Path)
    ensures var r := MovedSome(t, source, destination, names);
      && (q in r <==> (q in t && !Leaves(source, names, q)) || Arrives(t, source, destination, names, q))
      && (q in r ==> r[q] == if q in t && !Leaves(source, names, q) then t[q] else t[Origin(source, destination, q)])
  {
  }

  /** The parent of an entry that has arrived is a directory. */
  lemma ArrivedParent(t: Tree, source: Path, destination: Path, names: set<string>, q: Path)
    requires WellFormed(t) && IsDir(t, destination) && Apart(source, destination) && Passes(t, source, destination)
    requires Arrives(t, source, destination, names, q)
    ensures IsDir(MovedSome(t, source, destination, names), q[..|q| - 1])
  {
    hide MovedSome, WellFormed;
    var up := q[..|q| - 1];
    InMoved(t, source, destination, names, up);
    if |q| == |destination| + 1 {
      assert up == destination;
    } else {
      ArrivesParent(t, source, destination, names, q);
      var o := Origin(source, destination, up);
      OriginBelow(source, destination, up);
      assert !Blocks(t, source, destination, o);
    }
  }

  /** The parent of an entry that stays is a directory that stays. */
  lemma StayingParent(t: Tree, source: Path, destination: Path, names: set<string>, q: Path)
    requires WellFormed(t) && q in t && q != [] && !Leaves(source, names, q)
    ensures IsDir(MovedSome(t, source, destination, names), q[..|q| - 1])
  {
    hide MovedSome;
    var up := q[..|q| - 1];
    InMoved(t, source, destination, names, up);
    LeavesUp(source, names, q);
  }

  lemma LeavesUp(source: Path, names: set<string>, q: Path)
    requires q != []
    ensures Leaves(source, names, q[..|q| - 1]) ==> Leaves(source, names, q)
  {
    var up := q[..|q| - 1];
    if Leaves(source, names, up) {
      assert q[..|source|] == up[..|source|] && q[|source|] == up[|source|];
    }
  }

  /** Moving keeps every entry in a directory. */
  lemma MovedWellFormed(t: Tree, source: Path, destination: Path, names: set<string>)
    requires WellFormed(t) && IsDir(t, destination) && Apart(source, destination) && Passes(t, source, destination)
    ensures WellFormed(MovedSome(t, source, destination, names))
  {
    hide MovedSome, Passes;
    var r := MovedSome(t, source, destination, names);
    InMoved(t, source, destination, names, []);
    forall q | q in r && q != [] ensures IsDir(r, q[..|q| - 1]) {
      InMoved(t, source, destination, names, q);
      if q in t && !Leaves(source, names, q) {
        StayingParent(t, source, destination, names, q);
      } else {
        ArrivedParent(t, source, destination, names, q);
      }
    }
  }

  /** Children not yet moved are untouched, on both sides. */
  lemma UntouchedChild(t: Tree, source: Path, destination: Path, names: set<string>, name: string, q: Path)
    requires Apart(source, destination) && name !in names
    requires (Below(source, q) && q[|source|] == name) || (Below(destination, q) && q[|destination|] == name)
    ensures var r := MovedSome(t, source, destination, names);
      (q in r <==> q in t) && (q in t ==> r[q] == t[q])
  {
    if Below(source, q) {
      ApartBelow(source, destination, q);
    } else {
      ApartSym(source, destination);
      ApartBelow(destination, source, q);
    }
  }

  /** The same legacy entry, seen from a child: it lands on the same path. */
  lemma OriginChild(source: Path, destination: Path, name: string, p: Path)
    requires Below(source + [name], p)
    ensures Below(source, p) && p[|source|] == name
    ensures (destination + [name]) + p[|source + [name]|..] == destination + p[|source|..]
  {
    BelowChild(source, name, p);
    assert p[|source|..] == [name] + p[|source| + 1..];
  }

  /** An entry that may be moved stays so while other children move. */
  lemma PassesChild(t: Tree, t2: Tree, source: Path, destination: Path, names: set<string>, name: string)
    requires Apart(source, destination) && name !in names && Passes(t, source, destination)
    requires var r := MovedSome(t, source, destination, names);
      t2 == r || t2 == r[destination + [name] := Dir]
    ensures Passes(t2, source + [name], destination + [name])
  {
    hide MovedSome;
    var child, target := source + [name], destination + [name];
    var r := MovedSome(t, source, destination, names);
    forall p | p in t2 && Below(child, p) ensures !Blocks(t2, child, target, p) {
      OriginChild(source, destination, name, p);
      ApartBelow(source, destination, p);
      var landing := target + p[|child|..];
      assert landing[..|destination|] == destination && landing[|destination|] == name;
      assert |landing| > |target|;
      assert p != target by { assert target[..|destination|] == destination; }
      UntouchedChild(t, source, destination, names, name, p);
      UntouchedChild(t, source, destination, names, name, landing);
      assert !Blocks(t, source, destination, p);
    }
  }

  /** One more directory moved: made on the other side, its contents moved, then removed. */
  lemma DirectoryMoved(t: Tree, t2: Tree, source: Path, destination: Path, names: set<string>, name: string)
    requires WellFormed(t) && WellFormed(t2) && Apart(source, destination) && name !in names
    requires Passes(t, source, destination) && IsDir(t, source + [name])
    requires t2 == MovedSome(t, source, destination, names)[destination + [name] := Dir]
    ensures Moved(t2, source + [name], destination + [name]) - {source + [name]} ==
            MovedSome(t, source, destination, names + {name})
  {
    hide MovedSome, WellFormed, Passes;
    var child, target := source + [name], destination + [name];
    var left := Moved(t2, child, target) - {child};
    var right := MovedSome(t, source, destination, names + {name});
    forall q ensures (q in left <==> q in right) && (q in left ==> left[q] == right[q]) {
      DirectoryMovedAt(t, t2, source, destination, names, name, q);
    }
  }

  lemma DirectoryMovedAt(t: Tree, t2: Tree, source: Path, destination: Path, names: set<string>, name: string, q: Path)
    requires WellFormed(t) && WellFormed(t2) && Apart(source, destination) && name !in names
    requires Passes(t, source, destination) && IsDir(t, source + [name])
    requires t2 == MovedSome(t, source, destination, names)[destination + [name] := Dir]
    ensures var left := Moved(t2, source + [name], destination + [name]) - {source + [name]};
      var right := MovedSome(t, source, destination, names + {name});
      (q in left <==> q in right) && (q in left ==> left[q] == right[q])
  {
    hide MovedSome, WellFormed, Moved, Passes;
    var child, target := source + [name], destination + [name];
    BelowChild(source, name, q);
    BelowChild(destination, name, q);
    if q == child || Below(child, q) {
      DirectoryLeaves(t, t2, source, destination, names, name, q);
    } else if q == target {
      DirectoryMade(t, t2, source, destination, names, name);
    } else if Below(target, q) {
      DirectoryArrives(t, t2, source, destination, names, name, q);
    } else {
      hide Apart;
      InMoved(t2, child, target, Children(t2, child), q);
      InMoved(t, source, destination, names, q);
      InMoved(t, source, destination, names + {name}, q);
      MovedIs(t2, child, target);
    }
  }

  lemma MovedIs(t: Tree, source: Path, destination: Path)
    ensures Moved(t, source, destination) == MovedSome(t, source, destination, Children(t, source))
  {
  }

  lemma DirectoryLeaves(t: Tree, t2: Tree, source: Path, destination: Path, names: set<string>, name: string, q: Path)
    requires WellFormed(t) && WellFormed(t2) && Apart(source, destination) && name !in names
    requires Passes(t, source, destination) && IsDir(t, source + [name])
    requires t2 == MovedSome(t, source, destination, names)[destination + [name] := Dir]
    requires q == source + [name] || Below(source + [name], q)
    ensures q !in Moved(t2, source + [name], destination + [name]) - {source + [name]}
    ensures q !in MovedSome(t, source, destination, names + {name})
  {
    hide MovedSome, WellFormed, Passes;
    var child, target := source + [name], destination + [name];
    ApartChildren(source, destination, name, name);
    BelowChild(source, name, q);
    InMoved(t2, child, target, Children(t2, child), q);
    InMoved(t, source, destination, names + {name}, q);
    ApartBelow(source, destination, q);
    if Below(child, q) {
      ApartBelow(child, target, q);
      if q in t2 {
        ChildOf(t2, child, q);
      }
    }
  }

  lemma DirectoryMade(t: Tree, t2: Tree, source: Path, destination: Path, names: set<string>, name: string)
    requires WellFormed(t) && WellFormed(t2) && Apart(source, destination) && name !in names
    requires Passes(t, source, destination) && IsDir(t, source + [name])
    requires t2 == MovedSome(t, source, destination, names)[destination + [name] := Dir]
    ensures IsDir(Moved(t2, source + [name], destination + [name]) - {source + [name]}, destination + [name])
    ensures IsDir(MovedSome(t, source, destination, names + {name}), destination + [name])
  {
    hide MovedSome, WellFormed;
    var child, target := source + [name], destination + [name];
    ApartChildren(source, destination, name, name);
    assert child[..|source|] == source && child[|source|..] == [name];
    assert target[..|destination|] == destination && target[|destination|..] == [name];
    InMoved(t2, child, target, Children(t2, child), target);
    InMoved(t, source, destination, names + {name}, target);
    assert !Blocks(t, source, destination, child);
    ApartSym(source, destination);
    ApartBelow(destination, source, target);
  }

  lemma DirectoryArrives(t: Tree, t2: Tree, source: Path, destination: Path, names: set<string>, name: string, q: Path)
    requires WellFormed(t) && WellFormed(t2) && Apart(source, destination) && name !in names
    requires Passes(t, source, destination) && IsDir(t, source + [name])
    requires t2 == MovedSome(t, source, destination, names)[destination + [name] := Dir]
    requires Below(destination + [name], q)
    ensures var left := Moved(t2, source + [name], destination + [name]) - {source + [name]};
      var right := MovedSome(t, source, destination, names + {name});
      (q in left <==> q in right) && (q in left ==> left[q] == right[q])
  {
    hide MovedSome, WellFormed, Passes;
    var child, target := source + [name], destination + [name];
    ApartChildren(source, destination, name, name);
    BelowChild(destination, name, q);
    InMoved(t2, child, target, Children(t2, child), q);
    InMoved(t, source, destination, names + {name}, q);
    UntouchedChild(t, source, destination, names, name, q);
    ApartSym(source, destination);
    ApartBelow(destination, source, q);
    OriginBelow(source, destination, q);
    var o := Origin(source, destination, q);
    OriginBelow(child, target, q);
    OriginSame(source, destination, name, q);
    UntouchedChild(t, source, destination, names, name, o);
    ApartBelow(source, destination, o);
    assert o != target by { assert target[..|destination|] == destination; }
    if o in t2 {
      ChildOf(t2, child, o);
    }
    ApartSym(child, target);
    ApartBelow(target, child, q);
  }

  lemma OriginSame(source: Path, destination: Path, name: string, q: Path)
    requires Below(destination + [name], q)
    ensures Below(destination, q) && Origin(source + [name], destination + [name], q) == Origin(source, destination, q)
  {
    BelowChild(destination, name, q);
    assert q[|destination|..] == [name] + q[|destination| + 1..];
  }

  /** One more file moved: renamed to its place on the other side. */
  lemma FileMovedAt(t: Tree, source: Path, destination: Path, names: set<string>, name: string, q: Path)
    requires WellFormed(t) && Apart(source, destination) && name !in names
    requires Passes(t, source, destination)
    requires source + [name] in t && t[source + [name]].File?
    ensures var r := MovedSome(t, source, destination, names);
      var left := (r - {source + [name]})[destination + [name] := t[source + [name]]];
      var right := MovedSome(t, source, destination, names + {name});
      (q in left <==> q in right) && (q in left ==> left[q] == right[q])
  {
    hide MovedSome, WellFormed;
    var child, target := source + [name], destination + [name];
    assert child[..|source|] == source && child[|source|..] == [name];
    assert target[..|destination|] == destination && target[|destination|..] == [name];
    InMoved(t, source, destination, names, q);
    InMoved(t, source, destination, names + {name}, q);
    assert !Blocks(t, source, destination, child);
    BelowChild(source, name, q);
    BelowChild(destination, name, q);
    ApartSym(source, destination);
    ApartBelow(destination, source, target);
    if Below(child, q) {
      NothingBelow(t, child, q);
      ApartBelow(source, destination, q);
    }
    if Below(target, q) {
      OriginSame(source, destination, name, q);
      OriginBelow(child, target, q);
      NothingBelow(t, child, Origin(source, destination, q));
      ApartBelow(destination, source, q);
    }
    if q == child {
      ApartBelow(source, destination, q);
    }
  }

  lemma FileMoved(t: Tree, source: Path, destination: Path, names: set<string>, name: string)
    requires WellFormed(t) && Apart(source, destination) && name !in names
    requires Passes(t, source, destination)
    requires source + [name] in t && t[source + [name]].File?
    ensures (MovedSome(t, source, destination, names) - {source + [name]})[destination + [name] := t[source + [name]]] ==
            MovedSome(t, source, destination, names + {name})
  {
    hide MovedSome, WellFormed, Passes;
    var left := (MovedSome(t, source, destination, names) - {source + [name]})[destination + [name] := t[source + [name]]];
    var right := MovedSome(t, source, destination, names + {name});
    forall q ensures (q in left <==> q in right) && (q in left ==> left[q] == right[q]) {
      FileMovedAt(t, source, destination, names, name, q);
    }
  }
}
