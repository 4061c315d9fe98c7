/** What normalising a type text guarantees: round trips, one physical type behind two spellings. */
module TypeLaws {
  import opened Text
  import opened ColumnTypes

  // ---------------------------------------------------------------- splitting inverts joining

  /** Read from bracket depth `d`, the text meets no comma at depth 0 and ends at depth `e`. */
  predicate Whole(s: string, d: int, e: int) {
    if s == "" then d == e
    else
      var next := d + Delta(s[0]);
      !(s[0] == ',' && next == 0) && Whole(s[1..], next, e)
  }

  /** No bracket and no comma. */
  predicate Flat(s: string) { forall c | c in s :: Delta(c) == 0 && c != ',' }

  lemma {:induction false} WholeConcat(a: string, b: string, d: int, e: int, f: int)
    requires Whole(a, d, e) && Whole(b, e, f)
    ensures Whole(a + b, d, f)
  {
    if a == "" {
      assert a + b == b;
    } else {
      WholeConcat(a[1..], b, d + Delta(a[0]), e, f);
      assert (a + b)[1..] == a[1..] + b;
    }
  }

  lemma {:induction false} WholeFlat(s: string, d: int)
    requires Flat(s)
    ensures Whole(s, d, d)
  {
    if s != "" {
      assert s[0] in s && forall c | c in s[1..] :: c in s;
      WholeFlat(s[1..], d);
    }
  }

  lemma {:induction false} PiecesOfWhole(p: string, d: int)
    requires Whole(p, d, 0)
    ensures Pieces(p, d) == [p]
  {
    if p != "" {
      PiecesOfWhole(p[1..], d + Delta(p[0]));
      PiecesCons(p, d);
      assert [p[0]] + p[1..] == p;
    }
  }

  lemma {:induction false} PiecesCut(p: string, rest: string, d: int)
    requires Whole(p, d, 0)
    ensures Pieces(p + "," + rest, d) == [p] + Pieces(rest, 0)
  {
    hide Pieces;
    var s := p + "," + rest;
    PiecesCons(s, d);
    if p == "" {
      assert s[0] == ',' && s[1..] == rest;
    } else {
      var now := p[1..] + "," + rest;
      PiecesCut(p[1..], rest, d + Delta(p[0]));
      assert s[0] == p[0] && s[1..] == now;
      assert [p[0]] + p[1..] == p;
    }
  }

  function Padded(parts: seq<string>, pad: string): seq<string> {
    if parts == [] then [] else [pad + parts[0]] + Padded(parts[1..], pad)
  }

  predicate AllWhole(parts: seq<string>, d: int) { forall p | p in parts :: Whole(p, d, d) }

  lemma CommaSplit(lead: string, p: string, pad: string, tail: string)
    ensures lead + (p + ("," + pad) + tail) == (lead + p) + "," + (pad + tail)
  {
  }

  lemma {:induction false} PiecesJoin(lead: string, parts: seq<string>, pad: string)
    requires Flat(lead) && Flat(pad) && parts != [] && AllWhole(parts, 0)
    ensures Pieces(lead + Join(parts, "," + pad), 0) == [lead + parts[0]] + Padded(parts[1..], pad)
    decreases |parts|
  {
    hide Pieces, Whole;
    var first := lead + parts[0];
    assert parts[0] in parts;
    WholeFlat(lead, 0);
    WholeConcat(lead, parts[0], 0, 0, 0);
    if |parts| == 1 {
      PiecesOfWhole(first, 0);
    } else {
      var rest := pad + Join(parts[1..], "," + pad);
      CommaSplit(lead, parts[0], pad, Join(parts[1..], "," + pad));
      PiecesCut(first, rest, 0);
      PiecesJoin(pad, parts[1..], pad);
    }
  }

  predicate Blank(s: string) { forall c | c in s :: IsSpace(c) }

  lemma {:induction false} StripPadded(pad: string, p: string)
    requires Blank(pad) && Stripped(p)
    ensures Strip(pad + p) == p
  {
    StripLeftPadded(pad, p);
  }

  lemma {:induction false} StripLeftPadded(pad: string, p: string)
    requires Blank(pad) && Stripped(p)
    ensures StripLeft(pad + p) == p
  {
    if pad == "" {
      assert pad + p == p;
    } else {
      assert pad[0] in pad && forall c | c in pad[1..] :: c in pad;
      assert (pad + p)[1..] == pad[1..] + p;
      StripLeftPadded(pad[1..], p);
    }
  }

  predicate Words(parts: seq<string>) { forall p | p in parts :: p != "" && Stripped(p) }

  lemma WordsCons(parts: seq<string>)
    requires Words(parts) && parts != []
    ensures parts[0] != "" && Stripped(parts[0]) && Words(parts[1..]) && [parts[0]] + parts[1..] == parts
  {
    assert parts[0] in parts;
  }

  lemma TrimmedNone()
    ensures Trimmed([]) == []
  {
  }

  lemma TrimmedCons(first: string, rest: seq<string>)
    ensures Trimmed([first] + rest) == if Strip(first) == "" then Trimmed(rest) else [Strip(first)] + Trimmed(rest)
  {
    assert ([first] + rest)[1..] == rest;
    hide Strip;
  }

  lemma {:induction false} TrimPadded(parts: seq<string>, pad: string)
    requires Words(parts) && Blank(pad)
    ensures Trimmed(Padded(parts, pad)) == parts
  {
    TrimmedNone();
    hide Trimmed, Strip, Stripped, Blank, Words;
    if parts != [] {
      WordsCons(parts);
      StripPadded(pad, parts[0]);
      TrimPadded(parts[1..], pad);
      TrimmedCons(pad + parts[0], Padded(parts[1..], pad));
    }
  }

  /** Splitting at the top level inverts joining by commas, with or without blanks after them. */
  lemma SplitJoin(parts: seq<string>, pad: string)
    requires Words(parts) && AllWhole(parts, 0) && Blank(pad)
    ensures TopLevelParts(Join(parts, "," + pad)) == parts
  {
    forall c | c in pad ensures Delta(c) == 0 && c != ',' { }
    if parts == [] {
      assert Pieces("", 0) == [""] && Strip("") == "";
      assert Trimmed([""]) == Trimmed([]) == [];
    } else {
      var s := Join(parts, "," + pad);
      assert "" + s == s && "" + parts[0] == parts[0];
      PiecesJoin("", parts, pad);
      TrimPadded(parts[1..], pad);
      assert parts[0] in parts;
      var pieces := [parts[0]] + Padded(parts[1..], pad);
      assert pieces[1..] == Padded(parts[1..], pad);
      assert Trimmed(pieces) == [parts[0]] + parts[1..] == parts;
    }
  }

  lemma {:induction false} WholeJoin(parts: seq<string>, sep: string, d: int)
    requires Whole(sep, d, d) && AllWhole(parts, d)
    ensures Whole(Join(parts, sep), d, d)
  {
    if |parts| >= 1 {
      assert parts[0] in parts;
      if |parts| >= 2 {
        WholeJoin(parts[1..], sep, d);
        WholeConcat(parts[0], sep, d, d, d);
        WholeConcat(parts[0] + sep, Join(parts[1..], sep), d, d, d);
      }
    }
  }

  // ---------------------------------------------------------------- heads and arguments

  lemma {:induction false} FindFirst(text: string, c: char, k: nat)
    requires k < |text| && text[k] == c && c !in text[..k]
    ensures FindChar(text, c) == Some(k)
  {
    if k > 0 {
      assert text[0] in text[..k] && forall d | d in text[1..][..k - 1] :: d in text[..k];
      FindFirst(text[1..], c, k - 1);
    }
  }

  lemma FindNone(text: string, c: char)
    requires c !in text
    ensures FindChar(text, c) == None
  {
  }

  /** A head, its bracketed arguments, and nothing else. */
  function Bracketed(head: string, open: char, inner: string, close: char): string {
    head + [open] + inner + [close]
  }

  predicate Brackets(open: char, inner: string, close: char) {
    (open == '<' && close == '>') || (open == '(' && close == ')' && '<' !in inner)
  }

  lemma HeadArgs(head: string, open: char, inner: string, close: char)
    requires head != "" && Stripped(head) && Flat(head) && Brackets(open, inner, close)
    ensures var text := Bracketed(head, open, inner, close);
      && Stripped(text) && Strip(text) == text && text != "" && text[|text| - 2..] != "[]"
      && SplitHeadArgs(text) == (head, TopLevelParts(inner))
      && |inner| + 2 <= |text|
  {
    var text := Bracketed(head, open, inner, close);
    var k := |head|;
    assert text[..k] == head && text[k] == open && text[k + 1..|text| - 1] == inner;
    assert text[|text| - 1] == close && text[0] == head[0];
    assert text[|text| - 2..][1] == close;
    assert forall c | c in head :: c != '<' && c != '(';
    FindFirst(text, open, k);
    if open == '(' {
      assert '<' !in text;
      FindNone(text, '<');
    }
  }

  // ---------------------------------------------------------------- numbers

  lemma {:induction false} NumberAppend(s: string, c: char, before: bool, value: nat)
    requires IsDigit(c) && Number(s, before, value).Some? && forall d | d in s :: IsDigit(d)
    ensures Number(s + [c], before, value) == Some(10 * Number(s, before, value).value + (c as int - '0' as int))
  {
    if s == "" {
      assert s + [c] == [c];
      assert [c][1..] == "";
    } else {
      assert s[0] in s && forall d | d in s[1..] :: d in s;
      assert (s + [c])[1..] == s[1..] + [c];
      NumberAppend(s[1..], c, true, 10 * value + (s[0] as int - '0' as int));
    }
  }

  lemma {:induction false} NumberDigits(n: nat)
    ensures Number(Digits(n), false, 0) == Some(n)
  {
    if n >= 10 {
      NumberDigits(n / 10);
      NumberAppend(Digits(n / 10), Digit(n % 10), false, 0);
    } else {
      assert [Digit(n)][1..] == "";
    }
  }

  /** `int` reads back what `str` printed. */
  lemma IntOfPrinted(n: int)
    ensures IntOf(PrintInt(n)) == Some(n)
  {
    var digits := Digits(if n < 0 then -n else n);
    NumberDigits(if n < 0 then -n else n);
    assert ("-" + digits)[1..] == digits;
    hide Digits, Number;
  }

  lemma PrintedFlat(n: int)
    ensures Flat(PrintInt(n)) && PrintInt(n) != "" && Stripped(PrintInt(n))
    ensures forall c | c in PrintInt(n) :: c != ':' && c != '<'
  {
    hide Digits;
  }

  // ---------------------------------------------------------------- clean types

  predicate CleanName(n: string) { n != "" && Stripped(n) && Flat(n) && ':' !in n }

  /** Field names and lengths hold no delimiter, and a STRUCT has a field. */
  predicate Clean(ty: Ty) {
    match ty
    case Scalar(_) => true
    case Sized(_, n) => n != "" && Stripped(n) && Flat(n)
    case Decimal(_, _) => true
    case Array(e) => Clean(e)
    case Map(k, v) => Clean(k) && Clean(v)
    case Struct(fs) => fs != [] && CleanFields(fs)
  }

  predicate CleanFields(fs: seq<Field>) {
    fs == [] || (CleanName(fs[0].name) && Clean(fs[0].ty) && CleanFields(fs[1..]))
  }

  predicate HasNull(ty: Ty) {
    match ty
    case Scalar(k) => k == NullKind
    case Sized(_, _) => false
    case Decimal(_, _) => false
    case Array(e) => HasNull(e)
    case Map(k, v) => HasNull(k) || HasNull(v)
    case Struct(fs) => FieldsHaveNull(fs)
  }

  predicate FieldsHaveNull(fs: seq<Field>) {
    fs != [] && (HasNull(fs[0].ty) || FieldsHaveNull(fs[1..]))
  }

  // ---------------------------------------------------------------- the canonical text is well bracketed

  lemma WholeBracketed(head: string, open: char, inner: string, close: char, d: nat)
    requires Flat(head) && Delta(open) == 1 && Delta(close) == -1 && Whole(inner, d + 1, d + 1)
    ensures Whole(Bracketed(head, open, inner, close), d, d)
  {
    WholeFlat(head, d);
    assert [open][1..] == "" && [close][1..] == "";
    assert Whole([open], d, d + 1) && Whole([close], d + 1, d);
    WholeConcat(head, [open], d, d, d + 1);
    WholeConcat(head + [open], inner, d, d + 1, d + 1);
    WholeConcat(head + [open] + inner, [close], d, d + 1, d);
  }

  lemma WholeComma(d: nat)
    requires d >= 1
    ensures Whole(",", d, d) && Whole(", ", d, d)
  {
    assert ","[1..] == "" && ", "[1..] == " " && " "[1..] == "";
  }

  // The printers' texts, in the bracketed form.

  lemma SpelledArray(e: Ty)
    ensures Canon(Array(e)) == Bracketed("array", '<', Canon(e), '>')
  {
  }

  lemma SpelledSized(h: SizedHead, n: string)
    ensures Canon(Sized(h, n)) == Bracketed(SizedText(h), '(', n, ')')
  {
  }

  function DecimalArgs(p: int, s: int): seq<string> { [PrintInt(p), PrintInt(s)] }

  lemma SpelledDecimal(p: int, s: int)
    ensures Canon(Decimal(p, s)) == Bracketed("decimal", '(', Join(DecimalArgs(p, s), ","), ')')
    ensures DuckText(Decimal(p, s)) == Bracketed("DECIMAL", '(', Join(DecimalArgs(p, s), ","), ')')
  {
    JoinTwo(PrintInt(p), PrintInt(s), ",");
    hide PrintInt, Join;
  }

  lemma JoinTwo(a: string, b: string, sep: string)
    ensures Join([a, b], sep) == a + sep + b
  {
    assert [a, b][1..] == [b];
  }

  lemma SpelledMap(k: Ty, v: Ty)
    ensures Canon(Map(k, v)) == Bracketed("map", '<', Join([Canon(k), Canon(v)], ","), '>')
  {
    JoinTwo(Canon(k), Canon(v), ",");
    hide Join;
  }

  lemma SpelledDuckMap(k: Ty, v: Ty)
    ensures DuckText(Map(k, v)) == Bracketed("MAP", '(', Join([DuckText(k), DuckText(v)], ", "), ')')
  {
    JoinTwo(DuckText(k), DuckText(v), ", ");
    hide Join;
  }

  lemma SpelledStruct(fs: seq<Field>)
    ensures Canon(Struct(fs)) == Bracketed("struct", '<', Join(CanonFields(fs), ","), '>')
    ensures DuckText(Struct(fs)) == Bracketed("STRUCT", '(', Join(DuckFields(fs), ", "), ')')
  {
    hide Join;
  }

  predicate Word(s: string) { s != "" && Stripped(s) && Flat(s) && ':' !in s && '<' !in s && '(' !in s && ']' !in s }

  predicate PlainChar(c: char) { 'a' <= c <= 'z' || 'A' <= c <= 'Z' || '0' <= c <= '9' || c == '_' }

  /** Letters, digits and underscores only, from position `i` on. */
  predicate PlainFrom(s: string, i: nat)
    requires i <= |s|
    decreases |s| - i
  {
    i == |s| || (PlainChar(s[i]) && PlainFrom(s, i + 1))
  }

  lemma {:induction false} PlainChars(s: string, i: nat)
    requires i <= |s| && PlainFrom(s, i)
    ensures forall k | i <= k < |s| :: PlainChar(s[k])
    decreases |s| - i
  {
    if i < |s| {
      PlainChars(s, i + 1);
    }
  }

  lemma PlainWord(s: string)
    requires PlainFrom(s, 0) && s != ""
    ensures Word(s)
  {
    PlainChars(s, 0);
  }

  lemma KindTextWord(k: Kind)
    ensures Word(KindText(k)) && Word(KindDdl(k))
  {
    hide Word, PlainChar;
    KindTextPlain(k);
    PlainWord(KindText(k));
    PlainWord(KindDdl(k));
  }

  lemma KindTextPlain(k: Kind)
    ensures PlainFrom(KindText(k), 0) && PlainFrom(KindDdl(k), 0) && KindText(k) != "" && KindDdl(k) != ""
  {
    match k
    case StringKind => assert PlainFrom("string", 0) && PlainFrom("VARCHAR", 0);
    case IntKind => assert PlainFrom("int", 0) && PlainFrom("INTEGER", 0);
    case LongKind => assert PlainFrom("bigint", 0) && PlainFrom("BIGINT", 0);
    case ShortKind => assert PlainFrom("smallint", 0) && PlainFrom("SMALLINT", 0);
    case ByteKind => assert PlainFrom("tinyint", 0) && PlainFrom("TINYINT", 0);
    case FloatKind => assert PlainFrom("float", 0) && PlainFrom("FLOAT", 0);
    case DoubleKind => assert PlainFrom("double", 0) && PlainFrom("DOUBLE", 0);
    case BooleanKind => assert PlainFrom("boolean", 0) && PlainFrom("BOOLEAN", 0);
    case DateKind => assert PlainFrom("date", 0) && PlainFrom("DATE", 0);
    case TimestampKind => assert PlainFrom("timestamp", 0) && PlainFrom("TIMESTAMP", 0);
    case TimestampNtzKind => assert PlainFrom("timestamp_ntz", 0) && PlainFrom("TIMESTAMP", 0);
    case BinaryKind => assert PlainFrom("binary", 0) && PlainFrom("BLOB", 0);
    case IntervalKind => assert PlainFrom("interval", 0) && PlainFrom("INTERVAL", 0);
    case VariantKind => assert PlainFrom("variant", 0) && PlainFrom("VARIANT", 0);
    case NullKind => assert PlainFrom("void", 0) && PlainFrom("VARCHAR", 0);
  }

  lemma CanonWord(ty: Ty)
    requires Clean(ty)
    ensures Canon(ty) != "" && Stripped(Canon(ty))
  {
    hide Join, PrintInt, Clean, CanonFields;
    match ty
    case Scalar(k) =>
      KindTextWord(k);
      hide Flat;
    case Sized(h, n) => hide KindText;
    case Decimal(_, _) => hide KindText;
    case Array(_) => hide KindText, Canon; CanonEnds(ty);
    case Map(_, _) => hide KindText, Canon; CanonEnds(ty);
    case Struct(_) => hide KindText, Canon; CanonEnds(ty);
  }

  lemma CanonEnds(ty: Ty)
    requires ty.Array? || ty.Map? || ty.Struct?
    ensures Canon(ty) != "" && Stripped(Canon(ty))
  {
    hide Join, PrintInt, CanonFields, KindText;
  }

  lemma {:induction false} CanonWhole(ty: Ty, d: nat)
    requires Clean(ty)
    ensures Whole(Canon(ty), d, d)
  {
    hide Whole, Canon, Flat, Stripped, Bracketed;
    match ty
    case Scalar(k) =>
      KindTextWord(k);
      WholeFlat(KindText(k), d);
      ScalarCanon(k);
    case Sized(h, n) =>
      WholeFlat(n, d + 1);
      SpelledSized(h, n);
      HeadsFlat();
      WholeBracketed(SizedText(h), '(', n, ')', d);
    case Decimal(p, q) =>
      DecimalWhole(p, q, d + 1);
      SpelledDecimal(p, q);
      HeadsFlat();
      WholeBracketed("decimal", '(', Join(DecimalArgs(p, q), ","), ')', d);
    case Array(e) =>
      CanonWhole(e, d + 1);
      SpelledArray(e);
      HeadsFlat();
      WholeBracketed("array", '<', Canon(e), '>', d);
    case Map(k, v) =>
      CanonWhole(k, d + 1);
      CanonWhole(v, d + 1);
      SpelledMap(k, v);
      HeadsFlat();
      WholeComma(d + 1);
      WholeJoin([Canon(k), Canon(v)], ",", d + 1);
      WholeBracketed("map", '<', Join([Canon(k), Canon(v)], ","), '>', d);
    case Struct(fs) =>
      CanonFieldsWhole(fs, d + 1);
      SpelledStruct(fs);
      HeadsFlat();
      WholeComma(d + 1);
      WholeJoin(CanonFields(fs), ",", d + 1);
      WholeBracketed("struct", '<', Join(CanonFields(fs), ","), '>', d);
  }

  lemma ScalarCanon(k: Kind)
    ensures Canon(Scalar(k)) == KindText(k) && DuckText(Scalar(k)) == KindDdl(k) && Ddl(Scalar(k)) == KindDdl(k)
  {
  }

  lemma HeadsFlat()
    ensures Flat("char") && Flat("varchar") && Flat("decimal") && Flat("array") && Flat("map") && Flat("struct")
    ensures Flat("DECIMAL") && Flat("MAP") && Flat("STRUCT") && Flat("VARCHAR") && Flat("[]") && Flat(":") && Flat(" ")
  {
    PlainHeads();
    PlainFlat("char");
    PlainFlat("varchar");
    PlainFlat("decimal");
    PlainFlat("array");
    PlainFlat("map");
    PlainFlat("struct");
    PlainFlat("DECIMAL");
    PlainFlat("MAP");
    PlainFlat("STRUCT");
    PlainFlat("VARCHAR");
    MarksFlat();
    hide Flat, PlainFrom;
  }

  lemma MarksFlat()
    ensures Flat("[]") && Flat(":") && Flat(" ")
  {
  }

  lemma PlainFlat(s: string)
    requires PlainFrom(s, 0)
    ensures Flat(s)
  {
    PlainChars(s, 0);
  }

  lemma PlainHeads()
    ensures PlainFrom("char", 0) && PlainFrom("varchar", 0) && PlainFrom("decimal", 0) && PlainFrom("array", 0)
    ensures PlainFrom("map", 0) && PlainFrom("struct", 0) && PlainFrom("DECIMAL", 0) && PlainFrom("MAP", 0)
    ensures PlainFrom("STRUCT", 0) && PlainFrom("VARCHAR", 0)
  {
  }

  lemma DecimalWhole(p: int, s: int, d: nat)
    requires d >= 1
    ensures Whole(Join(DecimalArgs(p, s), ","), d, d)
  {
    hide Whole, Flat, PrintInt, Join;
    PrintedFlat(p);
    PrintedFlat(s);
    WholeFlat(PrintInt(p), d);
    WholeFlat(PrintInt(s), d);
    WholeComma(d);
    WholeJoin(DecimalArgs(p, s), ",", d);
  }

  lemma {:induction false} CanonFieldsWhole(fs: seq<Field>, d: nat)
    requires CleanFields(fs)
    ensures AllWhole(CanonFields(fs), d)
  {
    hide Whole, Canon, Flat;
    if fs != [] {
      CanonWhole(fs[0].ty, d);
      FieldWhole(fs[0].name, ":", Canon(fs[0].ty), d);
      CanonFieldsWhole(fs[1..], d);
    }
  }

  lemma FieldWhole(name: string, sep: string, text: string, d: nat)
    requires CleanName(name) && (sep == ":" || sep == " ") && Whole(text, d, d)
    ensures Whole(name + sep + text, d, d)
  {
    hide Whole, Flat;
    HeadsFlat();
    WholeFlat(name, d);
    WholeFlat(sep, d);
    WholeConcat(name, sep, d, d, d);
    WholeConcat(name + sep, text, d, d, d);
  }

  // ---------------------------------------------------------------- reading words

  function UpperPlainChar(c: char): char { if 'a' <= c <= 'z' then ((c as int) - 32) as char else c }

  /** `u` is the upper case of the plain text `s`, from position `i` on. */
  predicate UppersFrom(s: string, u: string, i: nat)
    requires i <= |s| == |u|
    decreases |s| - i
  {
    i == |s| || (UpperPlainChar(s[i]) == u[i] && UppersFrom(s, u, i + 1))
  }

  lemma {:induction false} UpperSlice(s: string, u: string, i: nat)
    requires i <= |s| == |u| && PlainFrom(s, i) && UppersFrom(s, u, i)
    ensures Upper(s[i..]) == u[i..]
    decreases |s| - i
  {
    if i < |s| {
      UpperSlice(s, u, i + 1);
      assert s[i..][0] == s[i] && s[i..][1..] == s[i + 1..] && u[i..] == [u[i]] + u[i + 1..];
      assert UpperChar(s[i]) == [u[i]];
    }
  }

  lemma UpperIs(s: string, u: string)
    requires |s| == |u| && PlainFrom(s, 0) && UppersFrom(s, u, 0)
    ensures Upper(s) == u
  {
    UpperSlice(s, u, 0);
    assert s[0..] == s && u[0..] == u;
  }

  predicate IsHead(u: string) { u in {"ARRAY", "MAP", "STRUCT", "DECIMAL", "NUMERIC"} }

  lemma ReadWord(s: string, u: string)
    requires Word(s) && Upper(s) == u && !IsHead(u)
    ensures Read(s) == match KindOf(u) case None => Err(s, UnknownType(s)) case Some(k) => Ok(Scalar(k))
  {
    FindNone(s, '<');
    FindNone(s, '(');
    if |s| >= 2 {
      assert s[|s| - 2..][1] == s[|s| - 1];
    }
    assert SplitHeadArgs(s) == (s, []);
    NoArguments(s, u);
    hide Upper, KindOf, SplitHeadArgs, ReadHead;
  }

  lemma NoArguments(s: string, u: string)
    requires Upper(s) == u && !IsHead(u)
    ensures ReadHead(s, [], s) == match KindOf(u) case None => Err(s, UnknownType(s)) case Some(k) => Ok(Scalar(k))
  {
    hide Upper, KindOf;
  }

  lemma PlainUpper(s: string, u: string)
    requires |s| == |u| && s != "" && PlainFrom(s, 0) && UppersFrom(s, u, 0)
    ensures Word(s) && Upper(s) == u
  {
    hide Word;
    PlainWord(s);
    UpperIs(s, u);
  }

  /** The kind DuckDB keeps. */
  function PhysicalKind(k: Kind): Kind {
    match k
    case TimestampNtzKind => TimestampKind
    case NullKind => StringKind
    case _ => k
  }

  /** The type text of a kind is one of its aliases, except that `void` names no type. */
  lemma ReadKindText(k: Kind)
    ensures Read(KindText(k)) == if k == NullKind then Err("void", UnknownType("void")) else Ok(Scalar(k))
  {
    hide Read, Upper, Word, UppersFrom, PlainFrom, KindText;
    UpperOfKindText(k);
    KindTextValue(k);
    ReadWord(KindText(k), KindAlias(k));
    KindOfAlias(k);
  }

  function KindAlias(k: Kind): string {
    match k
    case StringKind => "STRING"
    case IntKind => "INT"
    case LongKind => "BIGINT"
    case ShortKind => "SMALLINT"
    case ByteKind => "TINYINT"
    case FloatKind => "FLOAT"
    case DoubleKind => "DOUBLE"
    case BooleanKind => "BOOLEAN"
    case DateKind => "DATE"
    case TimestampKind => "TIMESTAMP"
    case TimestampNtzKind => "TIMESTAMP_NTZ"
    case BinaryKind => "BINARY"
    case IntervalKind => "INTERVAL"
    case VariantKind => "VARIANT"
    case NullKind => "VOID"
  }

  lemma KindTextValue(k: Kind)
    ensures k == NullKind ==> KindText(k) == "void"
  {
  }

  lemma KindOfAlias(k: Kind)
    ensures KindOf(KindAlias(k)) == if k == NullKind then None else Some(k)
    ensures KindOf(KindDdl(k)) == Some(PhysicalKind(k))
    ensures !IsHead(KindAlias(k)) && !IsHead(KindDdl(k))
  {
  }

  lemma UpperOfKindText(k: Kind)
    ensures Word(KindText(k)) && Upper(KindText(k)) == KindAlias(k)
  {
    hide Word, Upper;
    match k
    case StringKind => PlainUpper("string", "STRING");
    case IntKind => PlainUpper("int", "INT");
    case LongKind => PlainUpper("bigint", "BIGINT");
    case ShortKind => PlainUpper("smallint", "SMALLINT");
    case ByteKind => PlainUpper("tinyint", "TINYINT");
    case FloatKind => PlainUpper("float", "FLOAT");
    case DoubleKind => PlainUpper("double", "DOUBLE");
    case BooleanKind => PlainUpper("boolean", "BOOLEAN");
    case DateKind => PlainUpper("date", "DATE");
    case TimestampKind => PlainUpper("timestamp", "TIMESTAMP");
    case TimestampNtzKind => PlainUpper("timestamp_ntz", "TIMESTAMP_NTZ");
    case BinaryKind => PlainUpper("binary", "BINARY");
    case IntervalKind => PlainUpper("interval", "INTERVAL");
    case VariantKind => PlainUpper("variant", "VARIANT");
    case NullKind => PlainUpper("void", "VOID");
  }

  lemma ReadKindDdl(k: Kind)
    ensures Read(KindDdl(k)) == Ok(Scalar(PhysicalKind(k)))
  {
    hide Read, Upper, Word, KindDdl;
    KindTextWord(k);
    UpperOfKindDdl(k);
    KindOfAlias(k);
    ReadWord(KindDdl(k), KindDdl(k));
  }

  lemma UpperOfKindDdl(k: Kind)
    ensures Upper(KindDdl(k)) == KindDdl(k)
  {
    hide Upper;
    match k
    case StringKind => UpperIs("VARCHAR", "VARCHAR");
    case IntKind => UpperIs("INTEGER", "INTEGER");
    case LongKind => UpperIs("BIGINT", "BIGINT");
    case ShortKind => UpperIs("SMALLINT", "SMALLINT");
    case ByteKind => UpperIs("TINYINT", "TINYINT");
    case FloatKind => UpperIs("FLOAT", "FLOAT");
    case DoubleKind => UpperIs("DOUBLE", "DOUBLE");
    case BooleanKind => UpperIs("BOOLEAN", "BOOLEAN");
    case DateKind => UpperIs("DATE", "DATE");
    case TimestampKind => UpperIs("TIMESTAMP", "TIMESTAMP");
    case TimestampNtzKind => UpperIs("TIMESTAMP", "TIMESTAMP");
    case BinaryKind => UpperIs("BLOB", "BLOB");
    case IntervalKind => UpperIs("INTERVAL", "INTERVAL");
    case VariantKind => UpperIs("VARIANT", "VARIANT");
    case NullKind => UpperIs("VARCHAR", "VARCHAR");
  }

  // ---------------------------------------------------------------- reading constructors

  lemma ReadBracketed(head: string, open: char, close: char, parts: seq<string>, pad: string)
    requires Word(head) && Spelling(open, close, pad, Join(parts, "," + pad))
    requires Words(parts) && AllWhole(parts, 0)
    ensures var text := Bracketed(head, open, Join(parts, "," + pad), close);
      (forall a | a in parts :: |a| < |text|) && Read(text) == ReadHead(head, parts, text)
  {
    var inner := Join(parts, "," + pad);
    HeadArgs(head, open, inner, close);
    SplitJoin(parts, pad);
    hide Strip, SplitHeadArgs, Bracketed, TopLevelParts, ReadHead, Words, AllWhole, Word, Join;
  }

  lemma ReadArrayText(e: string)
    requires e != "" && Stripped(e) && Whole(e, 0, 0)
    ensures Read(Bracketed("array", '<', e, '>')) ==
      match Read(e) case Ok(t) => Ok(Array(t)) case Err(t, why) => Err(t, why)
  {
    PlainUpper("array", "ARRAY");
    assert Join([e], "," + "") == e;
    ReadBracketed("array", '<', '>', [e], "");
    hide Read, Upper, Bracketed, Word;
  }

  lemma ReadArraySuffix(e: string)
    requires e != "" && Stripped(e)
    ensures Read(e + "[]") == match Read(e) case Ok(t) => Ok(Array(t)) case Err(t, why) => Err(t, why)
  {
    var s := e + "[]";
    assert s[|s| - 2..] == "[]" && s[..|s| - 2] == e && s[0] == e[0] && s[|s| - 1] == ']';
    assert Stripped(s);
    hide Upper, SplitHeadArgs, ReadHead;
  }

  /** The pair of brackets and the blanks after commas, in one of the two spellings. */
  predicate Spelling(open: char, close: char, pad: string, inner: string) {
    (pad == "" || pad == " ") && Brackets(open, inner, close)
  }

  lemma ReadMapText(head: string, open: char, close: char, pad: string, k: string, v: string)
    requires Word(head) && Upper(head) == "MAP" && Spelling(open, close, pad, Join([k, v], "," + pad))
    requires Words([k, v]) && AllWhole([k, v], 0)
    ensures Read(Bracketed(head, open, Join([k, v], "," + pad), close)) ==
      match Read(k)
      case Err(t, why) => Err(t, why)
      case Ok(a) => match Read(v) case Err(t, why) => Err(t, why) case Ok(b) => Ok(Map(a, b))
  {
    ReadBracketed(head, open, close, [k, v], pad);
    hide Read, Upper, Bracketed, Words, AllWhole, Word, Join;
  }

  lemma ReadStructText(head: string, open: char, close: char, pad: string, args: seq<string>)
    requires Word(head) && Upper(head) == "STRUCT" && Spelling(open, close, pad, Join(args, "," + pad))
    requires args != [] && Words(args) && AllWhole(args, 0)
    ensures var text := Bracketed(head, open, Join(args, "," + pad), close);
      && (forall a | a in args :: |a| < |text|)
      && Read(text) == match ReadFields(args, text) case Err(t, why) => Err(t, why) case Ok(fs) => Ok(Struct(fs))
  {
    ReadBracketed(head, open, close, args, pad);
    hide Read, Upper, Bracketed, Words, AllWhole, Word, Join, ReadFields;
  }

  lemma ReadDecimalText(head: string, p: int, s: int)
    requires Word(head) && Upper(head) in {"DECIMAL", "NUMERIC"}
    ensures Read(Bracketed(head, '(', Join(DecimalArgs(p, s), ","), ')')) == Ok(Decimal(p, s))
  {
    hide Read, ReadHead, Upper, Bracketed, Words, AllWhole, Word, Join, DecimalArgs, DecimalOf;
    var args := DecimalArgs(p, s);
    var text := Bracketed(head, '(', Join(args, ","), ')');
    DecimalWords(p, s);
    assert "," + "" == ",";
    ReadBracketed(head, '(', ')', args, "");
    HeadIsDecimal(head, args, text);
    DecimalRead(p, s, text);
  }

  lemma HeadIsDecimal(head: string, args: seq<string>, text: string)
    requires Upper(head) in {"DECIMAL", "NUMERIC"} && forall a | a in args :: |a| < |text|
    ensures ReadHead(head, args, text) == DecimalOf(args, text)
  {
    hide Upper, DecimalOf;
  }

  lemma DecimalRead(p: int, s: int, text: string)
    ensures DecimalOf(DecimalArgs(p, s), text) == Ok(Decimal(p, s))
  {
    IntOfPrinted(p);
    IntOfPrinted(s);
    PrintedFlat(p);
    PrintedFlat(s);
    hide IntOf, PrintInt, Flat;
  }

  lemma DecimalWords(p: int, s: int)
    ensures Words(DecimalArgs(p, s)) && AllWhole(DecimalArgs(p, s), 0)
    ensures forall c | c in Join(DecimalArgs(p, s), ",") :: c != '<' && c != ':'
  {
    PrintedFlat(p);
    PrintedFlat(s);
    WholeFlat(PrintInt(p), 0);
    WholeFlat(PrintInt(s), 0);
    JoinTwo(PrintInt(p), PrintInt(s), ",");
    hide PrintInt, Whole, Flat, Stripped, Join;
  }

  lemma FlatPlain(n: string)
    requires Flat(n)
    ensures '<' !in n
  {
  }

  function SizedAlias(h: SizedHead): string { match h case CharHead => "CHAR" case VarcharHead => "VARCHAR" }

  lemma SizedUpper(h: SizedHead)
    ensures Word(SizedText(h)) && Upper(SizedText(h)) == SizedAlias(h) && !IsHead(SizedAlias(h))
  {
    hide Word, Upper;
    match h
    case CharHead => PlainUpper("char", "CHAR");
    case VarcharHead =>
      PlainUpper("varchar", "VARCHAR");
  }

  lemma SizedRead(h: SizedHead, n: string, text: string)
    requires Stripped(n)
    ensures ScalarOf(SizedText(h), [n], text) == Ok(Sized(h, n))
  {
    SizedUpper(h);
    hide Upper, Word, SizedText;
  }

  lemma ReadSizedText(h: SizedHead, n: string)
    requires n != "" && Stripped(n) && Flat(n)
    ensures Read(Bracketed(SizedText(h), '(', n, ')')) == Ok(Sized(h, n))
  {
    var head := SizedText(h);
    SizedUpper(h);
    WholeFlat(n, 0);
    assert Join([n], "," + "") == n;
    FlatPlain(n);
    ReadBracketed(head, '(', ')', [n], "");
    SizedRead(h, n, Bracketed(head, '(', n, ')'));
    hide Read, Upper, Bracketed, AllWhole, Word, Join, Flat, ScalarOf, SizedText;
  }

  // ---------------------------------------------------------------- fields

  lemma FieldPartsColon(name: string, text: string)
    requires CleanName(name) && text != "" && Stripped(text)
    ensures FieldParts(name + ":" + text) == (name, text)
  {
    var arg := name + ":" + text;
    assert arg[..|name|] == name && arg[|name|] == ':' && arg[|name| + 1..] == text;
    FindFirst(arg, ':', |name|);
    hide Strip, FindChar, Flat;
  }

  lemma FieldPartsSpace(name: string, text: string)
    requires CleanName(name) && ' ' !in name && text != "" && Stripped(text) && ':' !in text
    ensures FieldParts(name + " " + text) == (name, text)
  {
    var arg := name + " " + text;
    assert arg[..|name|] == name && arg[|name|] == ' ' && arg[|name| + 1..] == text;
    assert arg[0] == name[0] && arg[|arg| - 1] == text[|text| - 1];
    FindFirst(arg, ' ', |name|);
    FindNone(arg, ':');
    hide Strip, FindChar, Flat;
  }

  // ---------------------------------------------------------------- the round trip

  const VOID: Result<Ty> := Err("void", UnknownType("void"))

  lemma CanonFieldsWords(fs: seq<Field>)
    requires CleanFields(fs)
    ensures Words(CanonFields(fs))
  {
    hide Canon, Flat;
    if fs != [] {
      CanonWord(fs[0].ty);
      CanonFieldsWords(fs[1..]);
    }
  }

  /**
   * Normalising a canonical text gives its type again, unless NULL occurs in it:
   * NULL prints as `void`, and `void` is the text the error names.
   */
  lemma {:induction false} ReadCanon(ty: Ty)
    requires Clean(ty)
    ensures Read(Canon(ty)) == if HasNull(ty) then VOID else Ok(ty)
    decreases ty, 1
  {
    hide Read, Canon, Bracketed, Whole, Word, Flat, Stripped, Join;
    CanonWord(ty);
    match ty
    case Scalar(k) =>
      ReadKindText(k);
      ScalarCanon(k);
    case Sized(h, n) =>
      SpelledSized(h, n);
      ReadSizedText(h, n);
    case Decimal(p, s) =>
      SpelledDecimal(p, s);
      PlainUpper("decimal", "DECIMAL");
      ReadDecimalText("decimal", p, s);
    case Array(e) =>
      SpelledArray(e);
      ReadCanon(e);
      CanonWord(e);
      CanonWhole(e, 0);
      ReadArrayText(Canon(e));
    case Map(k, v) =>
      ReadCanonMap(k, v);
    case Struct(fs) =>
      ReadCanonStruct(fs);
  }

  lemma {:induction false} ReadCanonMap(k: Ty, v: Ty)
    requires Clean(k) && Clean(v)
    ensures Read(Canon(Map(k, v))) == if HasNull(k) || HasNull(v) then VOID else Ok(Map(k, v))
    decreases Map(k, v), 0
  {
    hide Read, Canon, Bracketed, Whole, Word, Flat, Stripped, Join;
    SpelledMap(k, v);
    ReadCanon(k);
    ReadCanon(v);
    CanonWord(k);
    CanonWord(v);
    CanonWhole(k, 0);
    CanonWhole(v, 0);
    PlainUpper("map", "MAP");
    assert "," + "" == ",";
    ReadMapText("map", '<', '>', "", Canon(k), Canon(v));
  }

  lemma {:induction false} ReadCanonStruct(fs: seq<Field>)
    requires CleanFields(fs) && fs != []
    ensures Read(Canon(Struct(fs))) == if FieldsHaveNull(fs) then VOID else Ok(Struct(fs))
    decreases Struct(fs), 0
  {
    hide Read, Canon, Bracketed, Whole, Word, Flat, Stripped, Join, CanonFields, CleanFields, FieldsHaveNull;
    SpelledStruct(fs);
    CanonFieldsWords(fs);
    CanonFieldsWhole(fs, 0);
    PlainUpper("struct", "STRUCT");
    assert "," + "" == ",";
    ReadStructText("struct", '<', '>', "", CanonFields(fs));
    ReadCanonFields(fs, Canon(Struct(fs)));
  }

  lemma {:induction false} ReadCanonFields(fs: seq<Field>, text: string)
    requires CleanFields(fs) && forall a | a in CanonFields(fs) :: |a| < |text|
    ensures ReadFields(CanonFields(fs), text) ==
      if FieldsHaveNull(fs) then Err("void", UnknownType("void")) else Ok(fs)
    decreases fs, 0
  {
    hide Read, Canon, FieldParts, Flat, Stripped;
    if fs != [] {
      var args := CanonFields(fs);
      assert args[0] in args && args[1..] == CanonFields(fs[1..]);
      CanonWord(fs[0].ty);
      FieldPartsColon(fs[0].name, Canon(fs[0].ty));
      ReadCanon(fs[0].ty);
      ReadCanonFields(fs[1..], text);
      assert [Field(fs[0].name, fs[0].ty)] + fs[1..] == fs;
    }
  }
}
