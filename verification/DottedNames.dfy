/** Dotted names: splitting, joining, and what a prefix with a trailing dot selects. */
module DottedNames {
  import opened Text

  /** `s.split(".")`. */
  function SplitDots(s: string): (r: seq<string>)
    ensures |r| >= 1 && forall p | p in r :: '.' !in p
  {
    if s == "" then [""]
    else
      var rest := SplitDots(s[1..]);
      if s[0] == '.' then [""] + rest else [[s[0]] + rest[0]] + rest[1..]
  }

  /** `s.startswith(prefix)`. */
  predicate StartsWith(s: string, prefix: string) { prefix <= s }

  lemma {:induction false} SplitPlain(s: string)
    requires '.' !in s
    ensures SplitDots(s) == [s]
  {
    if s != "" {
      SplitPlain(s[1..]);
      assert [s[0]] + s[1..] == s;
    }
  }

  /** Splitting around a dot splits both sides. */
  lemma {:induction false} SplitConcat(a: string, b: string)
    ensures SplitDots(a + "." + b) == SplitDots(a) + SplitDots(b)
  {
    var s := a + "." + b;
    if a == "" {
      assert s[0] == '.' && s[1..] == b;
    } else {
      SplitConcat(a[1..], b);
      assert s[0] == a[0] && s[1..] == a[1..] + "." + b;
      SplitStep(s);
      SplitStep(a);
      ConsConcat(a[0], SplitDots(a[1..]), SplitDots(b));
      hide SplitDots;
    }
  }

  function Cons(c: char, parts: seq<string>): seq<string>
    requires |parts| >= 1
  {
    if c == '.' then [""] + parts else [[c] + parts[0]] + parts[1..]
  }

  lemma SplitStep(s: string)
    requires s != ""
    ensures SplitDots(s) == Cons(s[0], SplitDots(s[1..]))
  {
  }

  lemma ConsConcat(c: char, a: seq<string>, b: seq<string>)
    requires |a| >= 1
    ensures Cons(c, a + b) == Cons(c, a) + b
  {
    assert (a + b)[0] == a[0] && (a + b)[1..] == a[1..] + b;
    if c == '.' {
      assert [""] + (a + b) == ([""] + a) + b;
    } else {
      assert [[c] + a[0]] + (a[1..] + b) == ([[c] + a[0]] + a[1..]) + b;
    }
  }

  /** `".".join` inverts `split(".")`. */
  lemma {:induction false} JoinSplit(s: string)
    ensures Join(SplitDots(s), ".") == s
  {
    if s != "" {
      JoinSplit(s[1..]);
      SplitStep(s);
      JoinCons(s[0], SplitDots(s[1..]));
      assert [s[0]] + s[1..] == s;
      hide SplitDots, Join;
    }
  }

  lemma JoinCons(c: char, parts: seq<string>)
    requires |parts| >= 1
    ensures Join(Cons(c, parts), ".") == [c] + Join(parts, ".")
  {
    if c == '.' {
      JoinHead("", parts);
      hide Join;
      assert "" + "." + Join(parts, ".") == [c] + Join(parts, ".");
    } else {
      JoinConsChar(c, parts);
      hide Join;
    }
  }

  lemma JoinConsChar(c: char, parts: seq<string>)
    requires |parts| >= 1
    ensures Join([[c] + parts[0]] + parts[1..], ".") == [c] + Join(parts, ".")
  {
    if |parts| == 1 {
      assert parts[1..] == [] && [[c] + parts[0]] + [] == [[c] + parts[0]];
    } else {
      var tail := parts[1..];
      assert parts == [parts[0]] + tail;
      JoinHead(parts[0], tail);
      JoinHead([c] + parts[0], tail);
      ConsText(c, parts[0], Join(tail, "."));
      hide Join;
    }
  }

  lemma JoinHead(p: string, rest: seq<string>)
    requires rest != []
    ensures Join([p] + rest, ".") == p + "." + Join(rest, ".")
  {
    assert ([p] + rest)[1..] == rest;
  }

  lemma ConsText(c: char, p: string, tail: string)
    ensures ([c] + p) + "." + tail == [c] + (p + "." + tail)
  {
  }

  lemma {:induction false} JoinConcat(a: seq<string>, b: seq<string>)
    requires a != [] && b != []
    ensures Join(a + b, ".") == Join(a, ".") + "." + Join(b, ".")
  {
    if |a| == 1 {
      assert (a + b)[0] == a[0] && (a + b)[1..] == b;
    } else {
      JoinConcat(a[1..], b);
      assert (a + b)[1..] == a[1..] + b;
      var x, y, z := a[0], Join(a[1..], "."), Join(b, ".");
      assert x + "." + (y + "." + z) == (x + "." + y) + "." + z;
    }
  }

  lemma {:induction false} SplitJoin(parts: seq<string>)
    requires parts != [] && forall p | p in parts :: '.' !in p
    ensures SplitDots(Join(parts, ".")) == parts
  {
    assert parts[0] in parts;
    SplitPlain(parts[0]);
    if |parts| >= 2 {
      SplitJoin(parts[1..]);
      SplitConcat(parts[0], Join(parts[1..], "."));
      assert [parts[0]] + parts[1..] == parts;
      hide SplitDots;
    } else {
      assert parts == [parts[0]];
    }
  }

  /** A name starts with another one and a dot exactly when the other one's parts are its first parts. */
  lemma DottedPrefix(name: string, parent: string)
    ensures StartsWith(name, parent + ".") <==>
      |SplitDots(parent)| < |SplitDots(name)| && SplitDots(name)[..|SplitDots(parent)|] == SplitDots(parent)
  {
    var p, n := SplitDots(parent), SplitDots(name);
    if StartsWith(name, parent + ".") {
      var rest := name[|parent| + 1..];
      assert name == parent + "." + rest;
      SplitConcat(parent, rest);
    }
    if |p| < |n| && n[..|p|] == p {
      assert n == p + n[|p|..];
      JoinConcat(p, n[|p|..]);
      JoinSplit(parent);
      JoinSplit(name);
    }
    hide SplitDots, Join;
  }

  /** A dotless first part: a name is below it exactly when it is the name's first part. */
  lemma BelowPlain(a: string, rest: string, parent: string)
    requires '.' !in a && '.' !in parent
    ensures StartsWith(a + "." + rest, parent + ".") <==> a == parent
  {
    SplitConcat(a, rest);
    SplitPlain(a);
    SplitPlain(parent);
    DottedPrefix(a + "." + rest, parent);
  }
}
