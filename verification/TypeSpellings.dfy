/** DuckDB's spelling of a type, the physical type behind it, and how a described column keeps it. */
module TypeSpellings {
  import opened Text
  import opened ColumnTypes
  import opened TypeLaws

  /** The type DuckDB stores: TIMESTAMP_NTZ, NULL and the lengths are gone. */
  function Physical(ty: Ty): Ty {
    match ty
    case Scalar(k) => Scalar(PhysicalKind(k))
    case Sized(_, _) => Scalar(StringKind)
    case Decimal(p, s) => ty
    case Array(e) => Array(Physical(e))
    case Map(k, v) => Map(Physical(k), Physical(v))
    case Struct(fs) => Struct(PhysicalFields(fs))
  }

  function PhysicalFields(fs: seq<Field>): (r: seq<Field>)
    ensures |r| == |fs|
  {
    if fs == [] then [] else [Field(fs[0].name, Physical(fs[0].ty))] + PhysicalFields(fs[1..])
  }

  predicate DuckName(n: string) { CleanName(n) && ' ' !in n }

  /** Every STRUCT has a field, and no field name holds a delimiter or a blank. */
  predicate DuckClean(ty: Ty) {
    match ty
    case Scalar(_) => true
    case Sized(_, _) => true
    case Decimal(_, _) => true
    case Array(e) => DuckClean(e)
    case Map(k, v) => DuckClean(k) && DuckClean(v)
    case Struct(fs) => fs != [] && DuckCleanFields(fs)
  }

  predicate DuckCleanFields(fs: seq<Field>) {
    fs == [] || (DuckName(fs[0].name) && DuckClean(fs[0].ty) && DuckCleanFields(fs[1..]))
  }

  // ---------------------------------------------------------------- DuckDB's text is well bracketed

  predicate NoAngle(s: string) { forall c | c in s :: c != '<' && c != ':' }

  lemma {:induction false} NoAngleJoin(parts: seq<string>, sep: string)
    requires NoAngle(sep) && forall p | p in parts :: NoAngle(p)
    ensures NoAngle(Join(parts, sep))
  {
    if |parts| >= 1 {
      assert parts[0] in parts;
      if |parts| >= 2 {
        NoAngleJoin(parts[1..], sep);
      }
    }
  }

  lemma NoAngleBracketed(head: string, inner: string)
    requires Word(head) && NoAngle(inner)
    ensures NoAngle(Bracketed(head, '(', inner, ')'))
  {
  }

  lemma {:induction false} DuckNoAngle(ty: Ty)
    requires DuckClean(ty)
    ensures NoAngle(DuckText(ty))
  {
    hide DuckText, Word, Bracketed, Join, NoAngle;
    match ty
    case Scalar(k) =>
      KindTextWord(k);
      ScalarCanon(k);
      WordNoAngle(KindDdl(k));
    case Sized(h, n) =>
      KindTextWord(StringKind);
      DuckSized(h, n);
      WordNoAngle("VARCHAR");
    case Decimal(p, s) =>
      DecimalWords(p, s);
      SpelledDecimal(p, s);
      assert NoAngle(Join(DecimalArgs(p, s), ",")) by { WordsNoAngle(Join(DecimalArgs(p, s), ",")); }
      PlainWord("DECIMAL");
      NoAngleBracketed("DECIMAL", Join(DecimalArgs(p, s), ","));
    case Array(e) =>
      DuckNoAngle(e);
      DuckArray(e);
      SuffixNoAngle(DuckText(e));
    case Map(k, v) =>
      DuckNoAngle(k);
      DuckNoAngle(v);
      SpelledDuckMap(k, v);
      CommaNoAngle([DuckText(k), DuckText(v)]);
      PlainWord("MAP");
      NoAngleBracketed("MAP", Join([DuckText(k), DuckText(v)], ", "));
    case Struct(fs) =>
      DuckFieldsNoAngle(fs);
      SpelledStruct(fs);
      CommaNoAngle(DuckFields(fs));
      PlainWord("STRUCT");
      NoAngleBracketed("STRUCT", Join(DuckFields(fs), ", "));
  }

  lemma WordNoAngle(s: string)
    requires Word(s)
    ensures NoAngle(s)
  {
  }

  lemma WordsNoAngle(s: string)
    requires forall c | c in s :: c != '<' && c != ':'
    ensures NoAngle(s)
  {
  }

  lemma SuffixNoAngle(s: string)
    requires NoAngle(s)
    ensures NoAngle(s + "[]")
  {
  }

  lemma {:induction false} DuckFieldsNoAngle(fs: seq<Field>)
    requires DuckCleanFields(fs)
    ensures forall p | p in DuckFields(fs) :: NoAngle(p)
  {
    if fs != [] {
      DuckNoAngle(fs[0].ty);
      DuckFieldsNoAngle(fs[1..]);
      FieldNoAngle(fs[0].name, DuckText(fs[0].ty));
      hide DuckText, NoAngle, DuckName, DuckClean;
    }
  }

  lemma FieldNoAngle(name: string, text: string)
    requires CleanName(name) && NoAngle(text)
    ensures NoAngle(name + " " + text)
  {
  }

  lemma DuckWord(ty: Ty)
    ensures DuckText(ty) != "" && Stripped(DuckText(ty))
  {
    match ty
    case Scalar(k) => KindTextWord(k);
    case Sized(_, _) => KindTextWord(StringKind);
    case Array(e) => DuckWord(e);
    case _ => hide Join, PrintInt, DuckFields;
  }

  lemma {:induction false} DuckWhole(ty: Ty, d: nat)
    requires DuckClean(ty)
    ensures Whole(DuckText(ty), d, d)
  {
    hide Whole, DuckText, Flat, Stripped, Bracketed, Join;
    HeadsFlat();
    match ty
    case Scalar(k) =>
      KindTextWord(k);
      WholeFlat(KindDdl(k), d);
      ScalarCanon(k);
    case Sized(h, n) =>
      WholeFlat("VARCHAR", d);
      DuckSized(h, n);
    case Decimal(p, q) =>
      DecimalWhole(p, q, d + 1);
      SpelledDecimal(p, q);
      WholeBracketed("DECIMAL", '(', Join(DecimalArgs(p, q), ","), ')', d);
    case Array(e) =>
      DuckWhole(e, d);
      WholeFlat("[]", d);
      DuckArray(e);
      WholeConcat(DuckText(e), "[]", d, d, d);
    case Map(k, v) =>
      DuckWhole(k, d + 1);
      DuckWhole(v, d + 1);
      SpelledDuckMap(k, v);
      WholeComma(d + 1);
      WholeJoin([DuckText(k), DuckText(v)], ", ", d + 1);
      WholeBracketed("MAP", '(', Join([DuckText(k), DuckText(v)], ", "), ')', d);
    case Struct(fs) =>
      DuckFieldsWhole(fs, d + 1);
      SpelledStruct(fs);
      WholeComma(d + 1);
      WholeJoin(DuckFields(fs), ", ", d + 1);
      WholeBracketed("STRUCT", '(', Join(DuckFields(fs), ", "), ')', d);
  }

  lemma DuckSized(h: SizedHead, n: string)
    ensures DuckText(Sized(h, n)) == "VARCHAR" == KindDdl(StringKind)
  {
  }

  lemma DuckArray(e: Ty)
    ensures DuckText(Array(e)) == DuckText(e) + "[]"
  {
  }

  lemma {:induction false} DuckFieldsWhole(fs: seq<Field>, d: nat)
    requires DuckCleanFields(fs)
    ensures AllWhole(DuckFields(fs), d) && Words(DuckFields(fs))
  {
    hide Whole, DuckText, Flat;
    if fs != [] {
      DuckWhole(fs[0].ty, d);
      DuckWord(fs[0].ty);
      FieldWhole(fs[0].name, " ", DuckText(fs[0].ty), d);
      DuckFieldsWhole(fs[1..], d);
    }
  }

  // ---------------------------------------------------------------- reading it back

  /** DuckDB's spelling, field names unquoted, denotes the physical type. */
  lemma {:induction false} ReadDuck(ty: Ty)
    requires DuckClean(ty)
    ensures Read(DuckText(ty)) == Ok(Physical(ty))
    decreases ty, 1
  {
    hide Read, DuckText, Bracketed, Whole, Word, Flat, Stripped, Join;
    match ty
    case Scalar(k) =>
      ReadKindDdl(k);
      ScalarCanon(k);
    case Sized(h, n) =>
      DuckSized(h, n);
      ReadKindDdl(StringKind);
    case Decimal(p, s) =>
      SpelledDecimal(p, s);
      PlainUpper("DECIMAL", "DECIMAL");
      ReadDecimalText("DECIMAL", p, s);
    case Array(e) =>
      DuckArray(e);
      DuckWord(e);
      ReadDuck(e);
      ReadArraySuffix(DuckText(e));
    case Map(k, v) =>
      ReadDuckMap(k, v);
    case Struct(fs) =>
      ReadDuckStruct(fs);
  }

  lemma {:induction false} ReadDuckMap(k: Ty, v: Ty)
    requires DuckClean(k) && DuckClean(v)
    ensures Read(DuckText(Map(k, v))) == Ok(Map(Physical(k), Physical(v)))
    decreases Map(k, v), 0
  {
    hide Read, DuckText, Bracketed, Whole, Word, Flat, Stripped, Join, Physical;
    SpelledDuckMap(k, v);
    ReadDuck(k);
    ReadDuck(v);
    DuckWord(k);
    DuckWord(v);
    DuckWhole(k, 0);
    DuckWhole(v, 0);
    var parts := [DuckText(k), DuckText(v)];
    DuckNoAngle(k);
    DuckNoAngle(v);
    CommaNoAngle(parts);
    PlainUpper("MAP", "MAP");
    assert "," + " " == ", ";
    ReadMapText("MAP", '(', ')', " ", DuckText(k), DuckText(v));
  }

  lemma CommaNoAngle(parts: seq<string>)
    requires forall p | p in parts :: NoAngle(p)
    ensures NoAngle(Join(parts, ", ")) && '<' !in Join(parts, ", ")
  {
    NoAngleJoin(parts, ", ");
  }

  lemma {:induction false} ReadDuckStruct(fs: seq<Field>)
    requires DuckCleanFields(fs) && fs != []
    ensures Read(DuckText(Struct(fs))) == Ok(Struct(PhysicalFields(fs)))
    decreases Struct(fs), 0
  {
    hide Read, DuckText, Bracketed, Whole, Word, Flat, Stripped, Join, DuckFields, DuckCleanFields, PhysicalFields;
    SpelledStruct(fs);
    DuckFieldsWhole(fs, 0);
    DuckFieldsNoAngle(fs);
    CommaNoAngle(DuckFields(fs));
    PlainUpper("STRUCT", "STRUCT");
    assert "," + " " == ", ";
    ReadStructText("STRUCT", '(', ')', " ", DuckFields(fs));
    ReadDuckFields(fs, DuckText(Struct(fs)));
  }

  lemma {:induction false} ReadDuckFields(fs: seq<Field>, text: string)
    requires DuckCleanFields(fs) && forall a | a in DuckFields(fs) :: |a| < |text|
    ensures ReadFields(DuckFields(fs), text) == Ok(PhysicalFields(fs))
    decreases fs, 0
  {
    hide Read, DuckText, FieldParts, Flat, Stripped, Physical;
    if fs != [] {
      var args := DuckFields(fs);
      assert args[0] in args && args[1..] == DuckFields(fs[1..]);
      DuckWord(fs[0].ty);
      DuckNoAngle(fs[0].ty);
      FieldPartsSpace(fs[0].name, DuckText(fs[0].ty));
      ReadDuck(fs[0].ty);
      ReadDuckFields(fs[1..], text);
    }
  }

  // ---------------------------------------------------------------- one physical type

  /** Every field name between double quotes. */
  function Quoted(ty: Ty): Ty {
    match ty
    case Scalar(_) => ty
    case Sized(_, _) => ty
    case Decimal(_, _) => ty
    case Array(e) => Array(Quoted(e))
    case Map(k, v) => Map(Quoted(k), Quoted(v))
    case Struct(fs) => Struct(QuotedFields(fs))
  }

  function QuotedFields(fs: seq<Field>): (r: seq<Field>)
    ensures |r| == |fs|
  {
    if fs == [] then [] else [Field("\"" + fs[0].name + "\"", Quoted(fs[0].ty))] + QuotedFields(fs[1..])
  }

  lemma {:induction false} DdlIsQuoted(ty: Ty)
    ensures Ddl(ty) == DuckText(Quoted(ty))
  {
    match ty
    case Scalar(_) =>
    case Sized(_, _) =>
    case Decimal(_, _) =>
    case Array(e) => DdlIsQuoted(e);
    case Map(k, v) =>
      DdlIsQuoted(k);
      DdlIsQuoted(v);
    case Struct(fs) => DdlFieldsAreQuoted(fs);
  }

  lemma {:induction false} DdlFieldsAreQuoted(fs: seq<Field>)
    ensures DdlFields(fs) == DuckFields(QuotedFields(fs))
  {
    if fs != [] {
      DdlIsQuoted(fs[0].ty);
      DdlFieldsAreQuoted(fs[1..]);
      var n, t := fs[0].name, Ddl(fs[0].ty);
      assert ("\"" + n + "\"") + " " + t == "\"" + n + "\" " + t;
    }
  }

  lemma {:induction false} QuotedClean(ty: Ty)
    requires DuckClean(ty)
    ensures DuckClean(Quoted(ty))
  {
    match ty
    case Scalar(_) =>
    case Sized(_, _) =>
    case Decimal(_, _) =>
    case Array(e) => QuotedClean(e);
    case Map(k, v) =>
      QuotedClean(k);
      QuotedClean(v);
    case Struct(fs) => QuotedFieldsClean(fs);
  }

  lemma {:induction false} QuotedFieldsClean(fs: seq<Field>)
    requires DuckCleanFields(fs)
    ensures DuckCleanFields(QuotedFields(fs))
  {
    if fs != [] {
      QuotedClean(fs[0].ty);
      QuotedFieldsClean(fs[1..]);
      QuotedName(fs[0].name);
      assert QuotedFields(fs)[1..] == QuotedFields(fs[1..]);
      hide DuckName;
    }
  }

  lemma QuotedName(n: string)
    requires DuckName(n)
    ensures DuckName("\"" + n + "\"")
  {
  }

  lemma {:induction false} QuotedPhysical(ty: Ty)
    ensures Physical(Quoted(ty)) == Quoted(Physical(ty))
  {
    match ty
    case Scalar(_) =>
    case Sized(_, _) =>
    case Decimal(_, _) =>
    case Array(e) => QuotedPhysical(e);
    case Map(k, v) =>
      QuotedPhysical(k);
      QuotedPhysical(v);
    case Struct(fs) => QuotedPhysicalFields(fs);
  }

  lemma {:induction false} QuotedPhysicalFields(fs: seq<Field>)
    ensures PhysicalFields(QuotedFields(fs)) == QuotedFields(PhysicalFields(fs))
  {
    if fs != [] {
      QuotedPhysical(fs[0].ty);
      QuotedPhysicalFields(fs[1..]);
      assert QuotedFields(fs)[1..] == QuotedFields(fs[1..]);
      assert PhysicalFields(fs)[1..] == PhysicalFields(fs[1..]);
    }
  }

  lemma {:induction false} DdlOfPhysical(ty: Ty)
    ensures Ddl(Physical(ty)) == Ddl(ty)
  {
    match ty
    case Scalar(_) =>
    case Sized(_, _) =>
    case Decimal(_, _) =>
    case Array(e) => DdlOfPhysical(e);
    case Map(k, v) =>
      DdlOfPhysical(k);
      DdlOfPhysical(v);
    case Struct(fs) => DdlOfPhysicalFields(fs);
  }

  lemma {:induction false} DdlOfPhysicalFields(fs: seq<Field>)
    ensures DdlFields(PhysicalFields(fs)) == DdlFields(fs)
  {
    if fs != [] {
      DdlOfPhysical(fs[0].ty);
      DdlOfPhysicalFields(fs[1..]);
      assert PhysicalFields(fs)[1..] == PhysicalFields(fs[1..]);
    }
  }

  /**
   * Re-reading the DDL sent to DuckDB gives the physical type with its field names still quoted.
   */
  lemma ReadEmitted(ty: Ty)
    requires DuckClean(ty)
    ensures Read(Ddl(ty)) == Ok(Quoted(Physical(ty)))
  {
    DdlIsQuoted(ty);
    QuotedClean(ty);
    ReadDuck(Quoted(ty));
    QuotedPhysical(ty);
    hide Read, Ddl, Quoted, Physical;
  }

  predicate HasStruct(ty: Ty) {
    match ty
    case Scalar(_) => false
    case Sized(_, _) => false
    case Decimal(_, _) => false
    case Array(e) => HasStruct(e)
    case Map(k, v) => HasStruct(k) || HasStruct(v)
    case Struct(_) => true
  }

  lemma {:induction false} QuotedFixed(ty: Ty)
    requires DuckClean(ty)
    ensures Quoted(Physical(ty)) == Physical(ty) <==> !HasStruct(ty)
  {
    match ty
    case Scalar(_) =>
    case Sized(_, _) =>
    case Decimal(_, _) =>
    case Array(e) => QuotedFixed(e);
    case Map(k, v) =>
      QuotedFixed(k);
      QuotedFixed(v);
    case Struct(fs) =>
      var n := fs[0].name;
      assert |"\"" + n + "\""| == |n| + 2;
      assert Quoted(Physical(ty)).fields[0].name == "\"" + n + "\"";
  }

  /** The DDL sent to DuckDB reads back as the physical type exactly when no STRUCT occurs in it. */
  lemma EmittedReadsBack(ty: Ty)
    requires DuckClean(ty)
    ensures Read(Ddl(ty)) == Ok(Physical(ty)) <==> !HasStruct(ty)
  {
    ReadEmitted(ty);
    QuotedFixed(ty);
    hide Read, Ddl, Quoted, Physical;
  }

  // ---------------------------------------------------------------- the Spark JSON

  /** The type without the lengths of CHAR and VARCHAR, which the Spark JSON drops. */
  function Unsized(ty: Ty): Ty {
    match ty
    case Scalar(_) => ty
    case Sized(_, _) => Scalar(StringKind)
    case Decimal(_, _) => ty
    case Array(e) => Array(Unsized(e))
    case Map(k, v) => Map(Unsized(k), Unsized(v))
    case Struct(fs) => Struct(UnsizedFields(fs))
  }

  function UnsizedFields(fs: seq<Field>): (r: seq<Field>)
    ensures |r| == |fs|
  {
    if fs == [] then [] else [Field(fs[0].name, Unsized(fs[0].ty))] + UnsizedFields(fs[1..])
  }

  /** A kind's JSON name is a plain word, a decimal's is not, and both determine the type. */
  lemma SimpleJsonDetermines(a: Ty, b: Ty)
    requires (a.Scalar? || a.Decimal?) && (b.Scalar? || b.Decimal?) && Json(a) == Json(b)
    ensures a == b
  {
    hide Canon, PrintInt, Read, Bracketed, Join, DecimalArgs, Word;
    if a.Decimal? && b.Decimal? {
      DecimalJsonReads(a.precision, a.scale);
      DecimalJsonReads(b.precision, b.scale);
    } else if a.Decimal? {
      DecimalJsonReads(a.precision, a.scale);
    } else if b.Decimal? {
      DecimalJsonReads(b.precision, b.scale);
    }
  }

  lemma DecimalJsonReads(p: int, s: int)
    ensures Json(Decimal(p, s)).SimpleJson? && Read(Json(Decimal(p, s)).name) == Ok(Decimal(p, s))
    ensures forall k: Kind :: KindJson(k) != Json(Decimal(p, s)).name
  {
    hide Read, Canon, Bracketed, PrintInt, KindJson, Word, Join;
    SpelledDecimal(p, s);
    PlainUpper("decimal", "DECIMAL");
    ReadDecimalText("decimal", p, s);
    DecimalSpelling(p, s);
    var name := Canon(Decimal(p, s));
    BracketAt("decimal", Join(DecimalArgs(p, s), ","));
    forall k: Kind ensures KindJson(k) != name {
      KindJsonPlain(k);
    }
  }

  lemma BracketAt(head: string, inner: string)
    ensures '(' in Bracketed(head, '(', inner, ')')
  {
    assert Bracketed(head, '(', inner, ')')[|head|] == '(';
  }

  lemma KindJsonPlain(k: Kind)
    ensures '(' !in KindJson(k)
  {
    match k
    case StringKind => case IntKind => case LongKind => case ShortKind => case ByteKind =>
    case FloatKind => case DoubleKind => case BooleanKind => case DateKind => case TimestampKind =>
    case TimestampNtzKind => case BinaryKind => case IntervalKind => case VariantKind => case NullKind =>
  }

  /** The Spark JSON determines the type up to the lengths of CHAR and VARCHAR. */
  lemma {:induction false} JsonDetermines(a: Ty, b: Ty)
    ensures Json(a) == Json(b) <==> Unsized(a) == Unsized(b)
  {
    JsonUnsized(a);
    JsonUnsized(b);
    if Json(a) == Json(b) {
      JsonInjective(Unsized(a), Unsized(b));
    }
  }

  lemma {:induction false} JsonUnsized(ty: Ty)
    ensures Json(Unsized(ty)) == Json(ty) && NoSized(Unsized(ty))
  {
    match ty
    case Scalar(_) =>
    case Sized(_, _) =>
    case Decimal(_, _) =>
    case Array(e) => JsonUnsized(e);
    case Map(k, v) =>
      JsonUnsized(k);
      JsonUnsized(v);
    case Struct(fs) => JsonFieldsUnsized(fs);
  }

  lemma {:induction false} JsonFieldsUnsized(fs: seq<Field>)
    ensures JsonFields(UnsizedFields(fs)) == JsonFields(fs) && NoSizedFields(UnsizedFields(fs))
  {
    if fs != [] {
      JsonUnsized(fs[0].ty);
      JsonFieldsUnsized(fs[1..]);
      assert UnsizedFields(fs)[1..] == UnsizedFields(fs[1..]);
    }
  }

  predicate NoSized(ty: Ty) {
    match ty
    case Scalar(_) => true
    case Sized(_, _) => false
    case Decimal(_, _) => true
    case Array(e) => NoSized(e)
    case Map(k, v) => NoSized(k) && NoSized(v)
    case Struct(fs) => NoSizedFields(fs)
  }

  predicate NoSizedFields(fs: seq<Field>) { fs == [] || (NoSized(fs[0].ty) && NoSizedFields(fs[1..])) }

  lemma {:induction false} JsonInjective(a: Ty, b: Ty)
    requires NoSized(a) && NoSized(b) && Json(a) == Json(b)
    ensures a == b
  {
    hide KindJson, PrintInt;
    match a
    case Scalar(_) => SimpleJsonDetermines(a, b);
    case Decimal(_, _) => SimpleJsonDetermines(a, b);
    case Array(e) => JsonInjective(e, b.element);
    case Map(k, v) =>
      JsonInjective(k, b.key);
      JsonInjective(v, b.value);
    case Struct(fs) => JsonFieldsInjective(fs, b.fields);
  }

  lemma {:induction false} JsonFieldsInjective(a: seq<Field>, b: seq<Field>)
    requires NoSizedFields(a) && NoSizedFields(b) && JsonFields(a) == JsonFields(b)
    ensures a == b
  {
    if a == [] {
      assert JsonFields(a) == [];
      assert b != [] ==> JsonFields(b) != [];
    } else {
      assert JsonFields(b) != [] && b != [];
      var p, q := JsonFields(a), JsonFields(b);
      assert p[0] == q[0] && p[1..] == JsonFields(a[1..]) && q[1..] == JsonFields(b[1..]);
      JsonInjective(a[0].ty, b[0].ty);
      JsonFieldsInjective(a[1..], b[1..]);
      assert a == [a[0]] + a[1..] && b == [b[0]] + b[1..];
    }
  }

  // ---------------------------------------------------------------- every accepted text

  predicate DelimiterFree(ty: Ty) {
    match ty
    case Scalar(_) => true
    case Sized(_, n) => Flat(n)
    case Decimal(_, _) => true
    case Array(e) => DelimiterFree(e)
    case Map(k, v) => DelimiterFree(k) && DelimiterFree(v)
    case Struct(fs) => DelimiterFreeFields(fs)
  }

  predicate DelimiterFreeFields(fs: seq<Field>) {
    fs == [] || (Flat(fs[0].name) && ':' !in fs[0].name && DelimiterFree(fs[0].ty) && DelimiterFreeFields(fs[1..]))
  }

  /** An accepted text has no empty STRUCT, name or length, and no blanks around them. */
  lemma {:induction false} ReadClean(text: string)
    requires Read(text).Ok? && DelimiterFree(Read(text).value)
    ensures Clean(Read(text).value)
    decreases |text|, 2, 0
  {
    hide Strip, SplitHeadArgs, ReadHead, Upper, Flat;
    var raw := Strip(text);
    if |raw| >= 2 && raw[|raw| - 2..] == "[]" {
      ReadClean(raw[..|raw| - 2]);
    } else {
      var (head, args) := SplitHeadArgs(raw);
      ReadHeadClean(head, args, text);
    }
  }

  lemma {:induction false} ReadHeadClean(head: string, args: seq<string>, text: string)
    requires forall a | a in args :: a != "" && Stripped(a) && |a| < |text|
    requires ReadHead(head, args, text).Ok? && DelimiterFree(ReadHead(head, args, text).value)
    ensures Clean(ReadHead(head, args, text).value)
    decreases |text|, 1, 0
  {
    hide Strip, Upper, Flat, Read, ReadFields, IntOf, KindOf;
    var upper := Upper(head);
    if upper == "ARRAY" {
      ReadClean(args[0]);
    } else if upper == "MAP" {
      ReadClean(args[0]);
      ReadClean(args[1]);
    } else if upper == "STRUCT" {
      ReadFieldsClean(args, text);
    } else if args != [] {
      assert args[0] in args;
    }
  }

  lemma {:induction false} ReadFieldsClean(args: seq<string>, text: string)
    requires forall a | a in args :: |a| < |text|
    requires ReadFields(args, text).Ok? && DelimiterFreeFields(ReadFields(args, text).value)
    ensures CleanFields(ReadFields(args, text).value)
    decreases |text|, 0, |args|
  {
    hide Strip, Flat, Read, DelimiterFree, Clean;
    if args != [] {
      var (name, fieldText) := FieldParts(args[0]);
      var fs := ReadFields(args, text).value;
      assert fs[1..] == ReadFields(args[1..], text).value;
      ReadClean(fieldText);
      ReadFieldsClean(args[1..], text);
    }
  }

  /**
   * Normalising what normalising gave: the same spec again exactly when NULL does not occur in the type,
   * for every accepted text whose names and lengths hold no delimiter.
   */
  lemma NormalizeAgain(text: string)
    requires Read(text).Ok? && DelimiterFree(Read(text).value)
    ensures var ty := Read(text).value;
      Normalize(Normalize(text).value.typeText) ==
        if HasNull(ty) then Err("void", UnknownType("void")) else Normalize(text)
  {
    ReadClean(text);
    ReadCanon(Read(text).value);
    hide Read, Canon, Clean, HasNull, Ddl, Json;
  }

  /** The Spark and the DuckDB spelling of one type normalise to the same physical type. */
  lemma SpellingsAgree(ty: Ty)
    requires Clean(ty) && DuckClean(ty) && !HasNull(ty)
    ensures Normalize(Canon(ty)).Ok? && Normalize(DuckText(ty)).Ok?
    ensures Normalize(Canon(ty)).value.ddl == Normalize(DuckText(ty)).value.ddl == Ddl(ty)
  {
    ReadCanon(ty);
    ReadDuck(ty);
    DdlOfPhysical(ty);
    hide Read, Canon, DuckText, Clean, DuckClean, HasNull, Ddl, Json, Physical;
  }

  // ---------------------------------------------------------------- describing columns

  datatype Declared = Declared(name: string, typeText: Option<string>, comment: Option<string>)

  datatype Actual = Actual(name: string, typeText: string, nullable: bool)

  /** A described column; `spec` is absent for a physical type with no Databricks equivalent. */
  datatype Described = Described(
    name: string, typeText: string, spec: Option<Spec>, position: nat, nullable: bool, comment: Option<string>)

  datatype Columns = AsDeclared(declared: seq<Declared>) | Merged(columns: seq<Described>)

  /** The last declared column of that name. */
  function ByName(declared: seq<Declared>, name: string): Option<Declared> {
    if declared == [] then None
    else if declared[|declared| - 1].name == name then Some(declared[|declared| - 1])
    else ByName(declared[..|declared| - 1], name)
  }

  function PreferDeclared(physical: Spec, declaredText: Option<string>): Spec {
    if declaredText.None? || declaredText.value == "" then physical
    else match Normalize(declaredText.value)
      case Err(_, _) => physical
      case Ok(declared) => if declared.ddl == physical.ddl then declared else physical
  }

  function Describe(column: Actual, declared: seq<Declared>, position: nat): Described {
    var own := ByName(declared, column.name);
    var comment := if own.Some? then own.value.comment else None;
    match Normalize(column.typeText)
    case Err(_, _) => Described(column.name, column.typeText, None, position, column.nullable, comment)
    case Ok(physical) =>
      var spec := PreferDeclared(physical, if own.Some? then own.value.typeText else None);
      Described(column.name, spec.typeText, Some(spec), position, column.nullable, comment)
  }

  method DescribeColumns(declared: seq<Declared>, actual: seq<Actual>) returns (r: Columns)
    ensures actual == [] ==> r == AsDeclared(declared)
    ensures actual != [] ==> r.Merged? && |r.columns| == |actual|
    ensures actual != [] ==> forall k | 0 <= k < |actual| :: r.columns[k] == Describe(actual[k], declared, k)
  {
    if actual == [] {
      return AsDeclared(declared);
    }
    var merged: seq<Described> := [];
    for position := 0 to |actual|
      invariant |merged| == position
      invariant forall k | 0 <= k < position :: merged[k] == Describe(actual[k], declared, k)
    {
      merged := merged + [Describe(actual[position], declared, position)];
    }
    r := Merged(merged);
  }

  /** The type a described column ends up with: the declared one when it denotes the physical type. */
  ghost function Chosen(column: Actual, declaredText: Option<string>): Ty
    requires Read(column.typeText).Ok?
  {
    var physical := Read(column.typeText).value;
    if declaredText.None? || declaredText.value == "" || Read(declaredText.value).Err? then physical
    else
      var declared := Read(declaredText.value).value;
      if Ddl(declared) == Ddl(physical) then declared else physical
  }

  predicate LastNamed(declared: seq<Declared>, name: string, k: nat) {
    && k < |declared| && declared[k].name == name
    && forall j | k < j < |declared| :: declared[j].name != name
  }

  lemma {:induction false} ByNameIsLast(declared: seq<Declared>, name: string)
    ensures ByName(declared, name).None? ==> forall d | d in declared :: d.name != name
    ensures ByName(declared, name).Some? ==>
      forall k: nat | LastNamed(declared, name, k) :: declared[k] == ByName(declared, name).value
    decreases |declared|
  {
    if declared != [] && declared[|declared| - 1].name != name {
      var rest := declared[..|declared| - 1];
      ByNameIsLast(rest, name);
      forall k: nat | LastNamed(declared, name, k)
        ensures LastNamed(rest, name, k) && rest[k] == declared[k]
      {
      }
    }
  }

  /** A described column keeps the physical name, place and nullability, and the comment of its last declaration. */
  lemma DescribedKeepsRest(column: Actual, declared: seq<Declared>, position: nat)
    ensures
      var d := Describe(column, declared, position);
      && d.name == column.name && d.position == position && d.nullable == column.nullable
      && (forall k: nat | LastNamed(declared, column.name, k) :: d.comment == declared[k].comment)
      && ((forall x | x in declared :: x.name != column.name) ==> d.comment == None)
  {
    hide ByName, Normalize, PreferDeclared;
    ByNameIsLast(declared, column.name);
    ByNameThere(declared, column.name);
  }

  lemma {:induction false} ByNameThere(declared: seq<Declared>, name: string)
    ensures ByName(declared, name).Some? ==> exists x :: x in declared && x.name == name
    decreases |declared|
  {
    if declared != [] && declared[|declared| - 1].name != name {
      ByNameThere(declared[..|declared| - 1], name);
    } else if declared != [] {
      assert declared[|declared| - 1] in declared;
    }
  }

  /**
   * A described column never changes the physical type, and its type text normalises back to that type
   * exactly when the chosen type has no NULL in it.
   */
  lemma DescribedKeepsPhysical(column: Actual, declared: seq<Declared>, position: nat)
    ensures var d := Describe(column, declared, position);
      Read(column.typeText).Err? ==> d.spec == None && d.typeText == column.typeText
    ensures var d := Describe(column, declared, position);
      var own := ByName(declared, column.name);
      Read(column.typeText).Ok? ==>
        var ty := Chosen(column, if own.Some? then own.value.typeText else None);
        && d.spec == Some(Render(ty)) && d.typeText == Canon(ty) && Ddl(ty) == Ddl(Read(column.typeText).value)
        && (DelimiterFree(ty) ==>
              && (Normalize(d.typeText).Ok? <==> !HasNull(ty))
              && (!HasNull(ty) ==> Normalize(d.typeText).value.ddl == Ddl(Read(column.typeText).value)))
  {
    hide Read, Canon, HasNull, Ddl, Json, DelimiterFree, ByName;
    if Read(column.typeText).Ok? {
      var own := ByName(declared, column.name);
      var text := if own.Some? then own.value.typeText else None;
      var ty := Chosen(column, text);
      if DelimiterFree(ty) {
        if text.Some? && text.value != "" && Read(text.value).Ok? && ty == Read(text.value).value {
          NormalizeAgain(text.value);
        } else {
          NormalizeAgain(column.typeText);
        }
      }
    }
  }

  /** A column declared NULL over a VARCHAR is described as `void`, which is no type. */
  lemma DeclaredNullIsVoid()
    ensures var d := Describe(Actual("c", "VARCHAR", true), [Declared("c", Some("NULL"), None)], 0);
      d.typeText == "void" && Normalize(d.typeText) == Err("void", UnknownType("void"))
  {
    hide Read, ByName, Describe, Canon, Ddl, Normalize;
    var column, declared := Actual("c", "VARCHAR", true), [Declared("c", Some("NULL"), None)];
    NullTexts();
    OnlyDeclared(declared[0]);
    ScalarCanon(NullKind);
    ScalarCanon(StringKind);
    assert Chosen(column, Some("NULL")) == Scalar(NullKind);
    DescribedKeepsPhysical(column, declared, 0);
    VoidNormalizes();
  }

  lemma VoidNormalizes()
    ensures Normalize("void") == Err("void", UnknownType("void"))
  {
    NullTexts();
    hide Read;
  }

  lemma OnlyDeclared(d: Declared)
    ensures ByName([d], d.name) == Some(d)
  {
  }

  lemma NullTexts()
    ensures Read("VARCHAR") == Ok(Scalar(StringKind)) && Read("NULL") == Ok(Scalar(NullKind))
    ensures Read("void") == Err("void", UnknownType("void"))
  {
    hide Read, Upper, Word;
    ReadKindDdl(StringKind);
    ReadKindText(NullKind);
    PlainUpper("NULL", "NULL");
    ReadWord("NULL", "NULL");
  }
}
