/** The DDL of a type determines the physical type, because field names stand in double quotes. */
module DdlSpellings {
  import opened Text
  import opened ColumnTypes
  import opened TypeLaws
  import opened TypeSpellings

  /** A field name with a double quote in it holds no bracket and no comma. */
  predicate NameOk(n: string) { '"' !in n || Flat(n) }

  predicate NamesOk(ty: Ty) {
    match ty
    case Scalar(_) => true
    case Sized(_, _) => true
    case Decimal(_, _) => true
    case Array(e) => NamesOk(e)
    case Map(k, v) => NamesOk(k) && NamesOk(v)
    case Struct(fs) => FieldNamesOk(fs)
  }

  predicate FieldNamesOk(fs: seq<Field>) {
    fs == [] || (NameOk(fs[0].name) && NamesOk(fs[0].ty) && FieldNamesOk(fs[1..]))
  }

  // ---------------------------------------------------------------- arrays

  /** The type within all array suffixes, and how many there are. */
  function Base(ty: Ty): (r: Ty)
    ensures !r.Array?
  {
    if ty.Array? then Base(ty.element) else ty
  }

  function Depth(ty: Ty): nat { if ty.Array? then 1 + Depth(ty.element) else 0 }

  function Suffixes(n: nat): string { if n == 0 then "" else "[]" + Suffixes(n - 1) }

  function Size(ty: Ty): nat {
    match ty
    case Scalar(_) => 1
    case Sized(_, _) => 1
    case Decimal(_, _) => 1
    case Array(e) => 1 + Size(e)
    case Map(k, v) => 1 + Size(k) + Size(v)
    case Struct(fs) => 1 + FieldsSize(fs)
  }

  function FieldsSize(fs: seq<Field>): nat { if fs == [] then 0 else 1 + Size(fs[0].ty) + FieldsSize(fs[1..]) }

  lemma {:induction false} SuffixesAppend(n: nat)
    ensures Suffixes(n) + "[]" == Suffixes(n + 1)
  {
    if n > 0 {
      SuffixesAppend(n - 1);
      assert Suffixes(n) + "[]" == "[]" + (Suffixes(n - 1) + "[]");
    }
  }

  lemma {:induction false} DdlOfBase(ty: Ty)
    ensures Ddl(ty) == Ddl(Base(ty)) + Suffixes(Depth(ty))
    ensures Size(Base(ty)) <= Size(ty) && (NamesOk(ty) ==> NamesOk(Base(ty)))
  {
    if ty.Array? {
      DdlOfBase(ty.element);
      SuffixesAppend(Depth(ty.element));
      var b, s := Ddl(Base(ty)), Suffixes(Depth(ty.element));
      assert (b + s) + "[]" == b + (s + "[]");
    }
  }

  lemma {:induction false} SameBase(a: Ty, b: Ty)
    requires Physical(Base(a)) == Physical(Base(b)) && Depth(a) == Depth(b)
    ensures Physical(a) == Physical(b)
  {
    if a.Array? {
      SameBase(a.element, b.element);
    }
  }

  lemma {:induction false} SameSuffixes(m: nat, n: nat, x: string, y: string)
    requires Suffixes(m) + x == Suffixes(n) + y && !Starts(x, "[") && !Starts(y, "[")
    ensures m == n && x == y
  {
    assert m > 0 ==> (Suffixes(m) + x)[0] == '[';
    assert n > 0 ==> (Suffixes(n) + y)[0] == '[';
    assert m == 0 ==> Suffixes(m) + x == x;
    assert n == 0 ==> Suffixes(n) + y == y;
    if m > 0 && n > 0 {
      assert Suffixes(m) + x == "[]" + (Suffixes(m - 1) + x) && Suffixes(n) + y == "[]" + (Suffixes(n - 1) + y);
      assert ("[]" + (Suffixes(m - 1) + x))[2..] == Suffixes(m - 1) + x;
      assert ("[]" + (Suffixes(n - 1) + y))[2..] == Suffixes(n - 1) + y;
      SameSuffixes(m - 1, n - 1, x, y);
    }
  }

  /** The first character is one of these. */
  predicate Starts(s: string, chars: string) { s != "" && s[0] in chars }

  // ---------------------------------------------------------------- words and names

  predicate AllPlain(w: string) { forall c | c in w :: PlainChar(c) }

  /** A word ends where the first other character stands. */
  lemma WordSplit(v: string, w: string, x: string, y: string)
    requires AllPlain(v) && AllPlain(w) && v + x == w + y
    requires (x != "" ==> !PlainChar(x[0])) && (y != "" ==> !PlainChar(y[0]))
    ensures v == w && x == y
  {
    var s := v + x;
    assert forall k | 0 <= k < |v| :: s[k] == v[k];
    assert forall k | 0 <= k < |w| :: s[k] == w[k];
    assert (x != "" ==> s[|v|] == x[0]) && (y != "" ==> s[|w|] == y[0]);
    assert |v| == |w|;
    assert s[..|v|] == v && s[..|w|] == w && s[|v|..] == x && s[|w|..] == y;
  }

  /** A part ends where the separator first stands. */
  lemma PartSplit(v: string, w: string, c: char, x: string, y: string)
    requires c !in v && c !in w && v + ([c] + x) == w + ([c] + y)
    ensures v == w && x == y
  {
    var s := v + ([c] + x);
    assert forall k | 0 <= k < |v| :: s[k] == v[k];
    assert forall k | 0 <= k < |w| :: s[k] == w[k];
    assert s[|v|] == c && s[|w|] == c;
    assert |v| == |w|;
    assert s[..|v|] == v && s[..|w|] == w && s[|v| + 1..] == x && s[|w| + 1..] == y;
  }

  /** Before any double quote the text comes to a bracket or a comma. */
  ghost predicate Stops(s: string) { exists h :: 0 <= h < |s| && s[h] in "(,)" && '"' !in s[..h] }

  lemma StopsBehind(w: string, s: string)
    requires '"' !in w && Stops(s)
    ensures Stops(w + s)
  {
    var h :| 0 <= h < |s| && s[h] in "(,)" && '"' !in s[..h];
    assert (w + s)[|w| + h] == s[h];
    assert (w + s)[..|w| + h] == w + s[..h];
  }

  lemma StopsHere(s: string)
    requires Starts(s, "(,)")
    ensures Stops(s)
  {
    assert s[..0] == "";
  }

  predicate IsCompound(ty: Ty) { ty.Decimal? || ty.Map? || ty.Struct? }

  /** The word a type begins with, but for arrays. */
  function Head(ty: Ty): string {
    match ty
    case Scalar(k) => KindDdl(k)
    case Sized(_, _) => "VARCHAR"
    case Decimal(_, _) => "DECIMAL"
    case Map(_, _) => "MAP"
    case Struct(_) => "STRUCT"
    case Array(_) => ""
  }

  /** What stands in the parentheses of a type. */
  function Body(ty: Ty): string {
    match ty
    case Decimal(p, s) => PrintInt(p) + ("," + PrintInt(s))
    case Map(k, v) => Ddl(k) + (", " + Ddl(v))
    case Struct(fs) => Join(DdlFields(fs), ", ")
    case _ => ""
  }

  lemma DdlParts(ty: Ty)
    requires !ty.Array?
    ensures Ddl(ty) == Head(ty) + (if IsCompound(ty) then "(" + (Body(ty) + ")") else "")
  {
    hide PrintInt, KindDdl;
    if ty.Decimal? {
      DecimalDdl(ty.precision, ty.scale);
    } else if ty.Map? {
      MapDdl(Ddl(ty.key), Ddl(ty.value));
    } else if ty.Struct? {
      StructDdl(Join(DdlFields(ty.fields), ", "));
    }
  }

  lemma DecimalDdl(p: int, s: int)
    ensures Ddl(Decimal(p, s)) == "DECIMAL" + ("(" + ((PrintInt(p) + ("," + PrintInt(s))) + ")"))
  {
    hide PrintInt;
    var a, b := PrintInt(p), PrintInt(s);
    assert "DECIMAL(" == "DECIMAL" + "(";
    assert "DECIMAL(" + a + "," + b + ")" == "DECIMAL" + ("(" + ((a + ("," + b)) + ")"));
  }

  lemma MapDdl(a: string, b: string)
    ensures "MAP(" + a + ", " + b + ")" == "MAP" + ("(" + ((a + (", " + b)) + ")"))
  {
  }

  lemma StructDdl(j: string)
    ensures "STRUCT(" + j + ")" == "STRUCT" + ("(" + (j + ")"))
  {
  }

  lemma HeadWord(ty: Ty)
    ensures AllPlain(Head(ty)) && '"' !in Head(ty)
  {
    match ty
    case Scalar(k) => KindWord(k);
    case Sized(_, _) => KindWord(StringKind);
    case _ =>
      PlainHeads();
  }

  lemma PlainHeads()
    ensures AllPlain("DECIMAL") && AllPlain("MAP") && AllPlain("STRUCT") && AllPlain("")
    ensures "DECIMAL" != "MAP" && "DECIMAL" != "STRUCT" && "MAP" != "STRUCT"
  {
  }

  lemma {:induction false} DdlStops(ty: Ty, rest: string)
    requires Stops(rest)
    ensures Stops(Ddl(ty) + rest)
  {
    hide Stops, Ddl, Head, Body;
    if ty.Array? {
      StopsBehind("[]", rest);
      DdlStops(ty.element, "[]" + rest);
      assert Ddl(ty) == Ddl(ty.element) + "[]" by { ArrayDdl(ty); }
      assert Ddl(ty.element) + ("[]" + rest) == Ddl(ty) + rest;
    } else {
      DdlParts(ty);
      HeadWord(ty);
      if IsCompound(ty) {
        var more := "(" + (Body(ty) + ")") + rest;
        StopsHere(more);
        StopsBehind(Head(ty), more);
        assert Ddl(ty) + rest == Head(ty) + more;
      } else {
        StopsBehind(Head(ty), rest);
        assert Ddl(ty) + rest == Head(ty) + rest;
      }
    }
  }

  lemma ArrayDdl(ty: Ty)
    requires ty.Array?
    ensures Ddl(ty) == Ddl(ty.element) + "[]"
  {
  }

  lemma KindWord(k: Kind)
    ensures AllPlain(KindDdl(k)) && '"' !in KindDdl(k)
  {
    hide KindDdl;
    KindTextPlain(k);
    PlainAll(KindDdl(k), 0);
    assert KindDdl(k)[0..] == KindDdl(k);
  }

  lemma {:induction false} PlainAll(s: string, i: nat)
    requires i <= |s| && PlainFrom(s, i)
    ensures AllPlain(s[i..])
    decreases |s| - i
  {
    if i < |s| {
      PlainAll(s, i + 1);
      assert s[i..] == [s[i]] + s[i + 1..];
    }
  }

  /** A quoted name ends where its quotes end, whatever type follows. */
  lemma NameSplit(m: string, n: string, x: string, y: string)
    requires NameOk(m) && NameOk(n) && Stops(x) && Stops(y)
    requires "\"" + (m + ("\" " + x)) == "\"" + (n + ("\" " + y))
    ensures m == n && x == y
  {
    hide NameOk, Stops;
    var p, q := m + ("\" " + x), n + ("\" " + y);
    assert p == ("\"" + p)[1..] == ("\"" + q)[1..] == q;
    if |m| < |n| {
      LongerName(m, n, x, y);
    } else if |n| < |m| {
      LongerName(n, m, y, x);
    } else {
      assert m == p[..|m|] == q[..|n|] == n;
      assert x == p[|m| + 2..] == q[|n| + 2..] == y;
    }
  }

  /** The longer name would have to reach over a bracket or a comma. */
  lemma LongerName(m: string, n: string, x: string, y: string)
    requires NameOk(n) && Stops(x) && |m| < |n|
    ensures m + ("\" " + x) != n + ("\" " + y)
  {
    var p, q, t := m + ("\" " + x), n + ("\" " + y), n[|m| + 1..];
    assert p[|m|] == '"' && q[|m|] == n[|m|] && n[|m|] in n;
    assert p[|m| + 1..] == " " + x;
    assert q[|m| + 1..] == t + ("\" " + y);
    assert "\" " + y == "\"" + (" " + y);
    hide Stops;
    if p == q {
      assert Flat(t);
      NoCut(t, x, " " + y);
      assert false;
    }
  }

  /** What stands before a double quote there holds a bracket or a comma. */
  lemma NoCut(t: string, x: string, z: string)
    requires " " + x == t + ("\"" + z) && Stops(x)
    ensures !Flat(t)
  {
    var h :| 0 <= h < |x| && x[h] in "(,)" && '"' !in x[..h];
    var s := " " + x;
    var q := x[..h];
    assert s[0] == ' ' && s[|t|] == '"' && s[h + 1] == x[h];
    assert forall k | 0 < k <= h :: s[k] == q[k - 1] && q[k - 1] in q;
    assert |t| > h + 1;
    assert t[h + 1] == s[h + 1] && t[h + 1] in t;
  }

  // ---------------------------------------------------------------- one text, one physical type

  /** What can follow a type in DDL, before and behind its array suffixes. */
  predicate Ends(s: string) { s == "" || Starts(s, ",)") }

  predicate EndsBase(s: string) { s == "" || Starts(s, ",)[") }

  lemma SuffixedEnds(n: nat, x: string)
    requires Ends(x)
    ensures EndsBase(Suffixes(n) + x)
  {
    if n > 0 {
      assert (Suffixes(n) + x)[0] == '[';
    } else {
      assert Suffixes(n) + x == x;
    }
  }

  /** Types that begin one text, followed by what can follow a type, are physically the same. */
  lemma {:induction false} DdlPrefix(a: Ty, b: Ty, x: string, y: string)
    requires NamesOk(a) && NamesOk(b) && Ends(x) && Ends(y) && Ddl(a) + x == Ddl(b) + y
    ensures Physical(a) == Physical(b) && x == y
    decreases Size(a), 1
  {
    hide Ddl, Physical, NamesOk, Size, Suffixes;
    DdlOfBase(a);
    DdlOfBase(b);
    var p, q := Suffixes(Depth(a)), Suffixes(Depth(b));
    SuffixedEnds(Depth(a), x);
    SuffixedEnds(Depth(b), y);
    assert (Ddl(Base(a)) + p) + x == Ddl(Base(a)) + (p + x);
    assert (Ddl(Base(b)) + q) + y == Ddl(Base(b)) + (q + y);
    BasePrefix(Base(a), Base(b), p + x, q + y);
    SameSuffixes(Depth(a), Depth(b), x, y);
    SameBase(a, b);
  }

  lemma {:induction false} BasePrefix(a: Ty, b: Ty, x: string, y: string)
    requires NamesOk(a) && NamesOk(b) && !a.Array? && !b.Array? && EndsBase(x) && EndsBase(y) && Ddl(a) + x == Ddl(b) + y
    ensures Physical(a) == Physical(b) && x == y
    decreases Size(a), 0
  {
    hide Ddl, Physical, NamesOk, Size, Head, Body;
    DdlParts(a);
    DdlParts(b);
    HeadWord(a);
    HeadWord(b);
    var p := if IsCompound(a) then "(" + (Body(a) + (")" + x)) else x;
    var q := if IsCompound(b) then "(" + (Body(b) + (")" + y)) else y;
    assert Ddl(a) + x == Head(a) + p;
    assert Ddl(b) + y == Head(b) + q;
    WordSplit(Head(a), Head(b), p, q);
    if IsCompound(a) || IsCompound(b) {
      assert p[0] == '(' && q[0] == '(';
      assert IsCompound(a) && IsCompound(b);
      assert p[1..] == Body(a) + (")" + x) && q[1..] == Body(b) + (")" + y);
      SameHead(a, b);
      BodyPrefix(a, b, x, y);
    } else {
      SameScalar(a, b);
    }
  }

  lemma SameScalar(a: Ty, b: Ty)
    requires !a.Array? && !b.Array? && !IsCompound(a) && !IsCompound(b) && Head(a) == Head(b)
    ensures Physical(a) == Physical(b)
  {
    var j := if a.Scalar? then a.kind else StringKind;
    var k := if b.Scalar? then b.kind else StringKind;
    assert Head(a) == KindDdl(j) && Head(b) == KindDdl(k);
    ReadKindDdl(j);
    ReadKindDdl(k);
    hide Read, KindDdl;
    assert PhysicalKind(j) == PhysicalKind(k);
  }

  lemma SameHead(a: Ty, b: Ty)
    requires IsCompound(a) && IsCompound(b) && Head(a) == Head(b)
    ensures a.Decimal? == b.Decimal? && a.Map? == b.Map? && a.Struct? == b.Struct?
  {
    PlainHeads();
  }

  lemma {:induction false} BodyPrefix(a: Ty, b: Ty, x: string, y: string)
    requires NamesOk(a) && NamesOk(b) && IsCompound(a)
    requires a.Decimal? == b.Decimal? && a.Map? == b.Map? && a.Struct? == b.Struct?
    requires Body(a) + (")" + x) == Body(b) + (")" + y)
    ensures Physical(a) == Physical(b) && x == y
    decreases Size(a), -1
  {
    hide Ddl, PrintInt;
    match a
    case Decimal(p, s) =>
      var q, t := b.precision, b.scale;
      assert Body(a) + (")" + x) == PrintInt(p) + ([','] + (PrintInt(s) + ([')'] + x)));
      assert Body(b) + (")" + y) == PrintInt(q) + ([','] + (PrintInt(t) + ([')'] + y)));
      IntNoMarks(p);
      IntNoMarks(s);
      IntNoMarks(q);
      IntNoMarks(t);
      PartSplit(PrintInt(p), PrintInt(q), ',', PrintInt(s) + ([')'] + x), PrintInt(t) + ([')'] + y));
      PartSplit(PrintInt(s), PrintInt(t), ')', x, y);
      IntOfPrinted(p);
      IntOfPrinted(q);
      IntOfPrinted(s);
      IntOfPrinted(t);
    case Map(k, v) =>
      var u, w := ", " + (Ddl(v) + (")" + x)), ", " + (Ddl(b.value) + (")" + y));
      assert Body(a) + (")" + x) == Ddl(k) + u;
      assert Body(b) + (")" + y) == Ddl(b.key) + w;
      DdlPrefix(k, b.key, u, w);
      assert u[2..] == Ddl(v) + (")" + x) && w[2..] == Ddl(b.value) + (")" + y);
      DdlPrefix(v, b.value, ")" + x, ")" + y);
      assert (")" + x)[1..] == x && (")" + y)[1..] == y;
    case Struct(fs) => FieldsPrefix(fs, b.fields, x, y);
  }

  lemma IntNoMarks(n: int)
    ensures ',' !in PrintInt(n) && ')' !in PrintInt(n)
  {
    PrintedFlat(n);
    hide PrintInt;
  }

  /** The fields from one on, with what follows them. */
  function FieldsText(fs: seq<Field>, x: string): string { Join(DdlFields(fs), ", ") + (")" + x) }

  lemma FieldsTextIs(fs: seq<Field>, x: string)
    ensures fs == [] ==> FieldsText(fs, x) == ")" + x
    ensures fs != [] ==>
      var more := if |fs| == 1 then ")" + x else ", " + FieldsText(fs[1..], x);
      FieldsText(fs, x) == "\"" + (fs[0].name + ("\" " + (Ddl(fs[0].ty) + more)))
  {
    hide Ddl;
    if |fs| == 1 {
      assert DdlFields(fs[1..]) == [];
    } else if |fs| > 1 {
      assert DdlFields(fs)[1..] == DdlFields(fs[1..]);
    }
  }

  lemma {:induction false} FieldsPrefix(fs: seq<Field>, gs: seq<Field>, x: string, y: string)
    requires FieldNamesOk(fs) && FieldNamesOk(gs) && FieldsText(fs, x) == FieldsText(gs, y)
    ensures PhysicalFields(fs) == PhysicalFields(gs) && x == y
    decreases FieldsSize(fs)
  {
    FieldsTextIs(fs, x);
    FieldsTextIs(gs, y);
    hide Ddl, NameOk, FieldsText;
    if fs == [] || gs == [] {
      assert (")" + x)[0] == ')' && (")" + y)[0] == ')';
      assert fs == [] && gs == [];
      assert (")" + x)[1..] == x && (")" + y)[1..] == y;
    } else {
      var f, g := fs[0], gs[0];
      var u := if |fs| == 1 then ")" + x else ", " + FieldsText(fs[1..], x);
      var w := if |gs| == 1 then ")" + y else ", " + FieldsText(gs[1..], y);
      StopsHere(u);
      StopsHere(w);
      DdlStops(f.ty, u);
      DdlStops(g.ty, w);
      NameSplit(f.name, g.name, Ddl(f.ty) + u, Ddl(g.ty) + w);
      DdlPrefix(f.ty, g.ty, u, w);
      assert u[0] == w[0];
      if |fs| == 1 {
        assert (")" + x)[1..] == x && (")" + y)[1..] == y;
        assert PhysicalFields(fs[1..]) == PhysicalFields(gs[1..]) == [];
      } else {
        assert u[2..] == FieldsText(fs[1..], x) && w[2..] == FieldsText(gs[1..], y);
        FieldsPrefix(fs[1..], gs[1..], x, y);
      }
    }
  }

  /** The emitted DDL is one and the same exactly for types that are physically the same. */
  lemma SameDdl(a: Ty, b: Ty)
    requires NamesOk(a) && NamesOk(b)
    ensures Ddl(a) == Ddl(b) <==> Physical(a) == Physical(b)
  {
    DdlOfPhysical(a);
    DdlOfPhysical(b);
    hide Ddl, Physical, NamesOk;
    if Ddl(a) == Ddl(b) {
      assert Ddl(a) + "" == Ddl(b) + "";
      DdlPrefix(a, b, "", "");
    }
  }

  /** A declared spelling is kept exactly when it denotes the type that is physically there. */
  lemma KeepsDeclared(column: Actual, declaredText: string)
    requires declaredText != "" && Read(column.typeText).Ok? && Read(declaredText).Ok?
    requires NamesOk(Read(column.typeText).value) && NamesOk(Read(declaredText).value)
    ensures var physical, declared := Read(column.typeText).value, Read(declaredText).value;
      PreferDeclared(Render(physical), Some(declaredText)) ==
        if Physical(declared) == Physical(physical) then Render(declared) else Render(physical)
  {
    hide Read, Ddl, Canon, Json, Physical, NamesOk;
    SameDdl(Read(column.typeText).value, Read(declaredText).value);
  }

  /** A name that holds a quote and a comma can make one text of two types. */
  lemma QuoteAndComma(p: string, q: string, e: Ty)
    ensures var n := p + ("\" " + (Ddl(e) + (", \"" + q)));
      var a, b := Struct([Field(n, e)]), Struct([Field(p, e), Field(q, e)]);
      Ddl(a) == Ddl(b) && Physical(a) != Physical(b) && !NamesOk(a)
  {
    hide Ddl, Physical;
    var n := p + ("\" " + (Ddl(e) + (", \"" + q)));
    var fs, gs := [Field(n, e)], [Field(p, e), Field(q, e)];
    FieldsTextIs(fs, "");
    FieldsTextIs(gs, "");
    FieldsTextIs(gs[1..], "");
    var t := Ddl(e) + (")" + "");
    assert n + ("\" " + t) == p + ("\" " + (Ddl(e) + (", " + ("\"" + (q + ("\" " + t))))));
    assert FieldsText(fs, "") == FieldsText(gs, "");
    StructText(fs);
    StructText(gs);
    assert (", \"" + q)[0] == ',' && ',' in n && '"' in n;
    assert |PhysicalFields(fs)| == 1 && |PhysicalFields(gs)| == 2;
    PhysicalStruct(fs);
    PhysicalStruct(gs);
  }

  lemma StructText(fs: seq<Field>)
    ensures Ddl(Struct(fs)) == "STRUCT(" + FieldsText(fs, "")
  {
    assert ")" + "" == ")";
    var j := Join(DdlFields(fs), ", ");
    assert "STRUCT(" + j + ")" == "STRUCT(" + (j + ")");
  }

  lemma PhysicalStruct(fs: seq<Field>)
    ensures Physical(Struct(fs)) == Struct(PhysicalFields(fs))
  {
  }
}
