/** Column types: one parser for the Spark and the DuckDB spelling, a canonical printer, a physical type. */
module ColumnTypes {
  import opened Text

  // ---------------------------------------------------------------- types

  /** The scalar types, one for each row of the alias table that differs from the others. */
  datatype Kind =
    | StringKind | IntKind | LongKind | ShortKind | ByteKind | FloatKind | DoubleKind | BooleanKind
    | DateKind | TimestampKind | TimestampNtzKind | BinaryKind | IntervalKind | VariantKind | NullKind

  /** CHAR(n) and VARCHAR(n) keep their length in the type text. */
  datatype SizedHead = CharHead | VarcharHead

  datatype Ty =
    | Scalar(kind: Kind)
    | Sized(head: SizedHead, length: string)
    | Decimal(precision: int, scale: int)
    | Array(element: Ty)
    | Map(key: Ty, value: Ty)
    | Struct(fields: seq<Field>)

  datatype Field = Field(name: string, ty: Ty)

  datatype Reason =
    | EmptyType | ArrayArity | MapArity | NoFields | MalformedField(arg: string)
    | DecimalNotInteger | DecimalArity | UnknownType(name: string)

  datatype Result<+T> = Ok(value: T) | Err(text: string, reason: Reason)

  /** The Spark JSON of a type. */
  datatype SparkType =
    | SimpleJson(name: string)
    | ArrayJson(element: SparkType)
    | MapJson(key: SparkType, value: SparkType)
    | StructJson(fields: seq<SparkField>)

  datatype SparkField = SparkField(name: string, ty: SparkType)

  /** What normalising a type text yields. */
  datatype Spec = Spec(
    ddl: string, typeName: string, typeText: string,
    precision: Option<int>, scale: Option<int>, json: SparkType)

  // ---------------------------------------------------------------- the alias table

  function KindOf(upper: string): Option<Kind> {
    if upper in {"STRING", "VARCHAR", "TEXT", "CHAR"} then Some(StringKind)
    else if upper in {"INT", "INTEGER"} then Some(IntKind)
    else if upper in {"LONG", "BIGINT"} then Some(LongKind)
    else if upper in {"SHORT", "SMALLINT"} then Some(ShortKind)
    else if upper in {"BYTE", "TINYINT"} then Some(ByteKind)
    else if upper in {"FLOAT", "REAL"} then Some(FloatKind)
    else if upper == "DOUBLE" then Some(DoubleKind)
    else if upper in {"BOOLEAN", "BOOL"} then Some(BooleanKind)
    else if upper == "DATE" then Some(DateKind)
    else if upper == "TIMESTAMP" then Some(TimestampKind)
    else if upper == "TIMESTAMP_NTZ" then Some(TimestampNtzKind)
    else if upper in {"BINARY", "BLOB"} then Some(BinaryKind)
    else if upper == "INTERVAL" then Some(IntervalKind)
    else if upper == "VARIANT" then Some(VariantKind)
    else if upper == "NULL" then Some(NullKind)
    else None
  }

  function KindDdl(k: Kind): string {
    match k
    case StringKind => "VARCHAR" case IntKind => "INTEGER" case LongKind => "BIGINT"
    case ShortKind => "SMALLINT" case ByteKind => "TINYINT" case FloatKind => "FLOAT"
    case DoubleKind => "DOUBLE" case BooleanKind => "BOOLEAN" case DateKind => "DATE"
    case TimestampKind => "TIMESTAMP" case TimestampNtzKind => "TIMESTAMP" case BinaryKind => "BLOB"
    case IntervalKind => "INTERVAL" case VariantKind => "VARIANT" case NullKind => "VARCHAR"
  }

  function KindTypeName(k: Kind): string {
    match k
    case StringKind => "STRING" case IntKind => "INT" case LongKind => "LONG"
    case ShortKind => "SHORT" case ByteKind => "BYTE" case FloatKind => "FLOAT"
    case DoubleKind => "DOUBLE" case BooleanKind => "BOOLEAN" case DateKind => "DATE"
    case TimestampKind => "TIMESTAMP" case TimestampNtzKind => "TIMESTAMP_NTZ" case BinaryKind => "BINARY"
    case IntervalKind => "INTERVAL" case VariantKind => "VARIANT" case NullKind => "NULL"
  }

  function KindJson(k: Kind): string {
    match k
    case StringKind => "string" case IntKind => "integer" case LongKind => "long"
    case ShortKind => "short" case ByteKind => "byte" case FloatKind => "float"
    case DoubleKind => "double" case BooleanKind => "boolean" case DateKind => "date"
    case TimestampKind => "timestamp" case TimestampNtzKind => "timestamp_ntz" case BinaryKind => "binary"
    case IntervalKind => "interval" case VariantKind => "variant" case NullKind => "void"
  }

  function KindText(k: Kind): string {
    match k
    case StringKind => "string" case IntKind => "int" case LongKind => "bigint"
    case ShortKind => "smallint" case ByteKind => "tinyint" case FloatKind => "float"
    case DoubleKind => "double" case BooleanKind => "boolean" case DateKind => "date"
    case TimestampKind => "timestamp" case TimestampNtzKind => "timestamp_ntz" case BinaryKind => "binary"
    case IntervalKind => "interval" case VariantKind => "variant" case NullKind => "void"
  }

  function SizedText(h: SizedHead): string { match h case CharHead => "char" case VarcharHead => "varchar" }

  // ---------------------------------------------------------------- strings

  /** `str.isspace()` of one character. */
  predicate IsSpace(c: char) {
    || '\U{0009}' <= c <= '\U{000D}' || '\U{001C}' <= c <= '\U{0020}' || c == '\U{0085}' || c == '\U{00A0}'
    || c == '\U{1680}' || '\U{2000}' <= c <= '\U{200A}' || c == '\U{2028}' || c == '\U{2029}'
    || c == '\U{202F}' || c == '\U{205F}' || c == '\U{3000}'
  }

  predicate Stripped(s: string) { s != "" ==> !IsSpace(s[0]) && !IsSpace(s[|s| - 1]) }

  function StripLeft(s: string): (r: string)
    ensures |r| <= |s| && (r != "" ==> !IsSpace(r[0]) && s != "" && r[|r| - 1] == s[|s| - 1])
  {
    if s != "" && IsSpace(s[0]) then StripLeft(s[1..]) else s
  }

  function StripRight(s: string): (r: string)
    ensures |r| <= |s| && (r != "" ==> !IsSpace(r[|r| - 1]) && s != "" && r[0] == s[0])
  {
    if s != "" && IsSpace(s[|s| - 1]) then StripRight(s[..|s| - 1]) else s
  }

  /** `str.strip()`. */
  function Strip(s: string): (r: string)
    ensures |r| <= |s| && Stripped(r) && (Stripped(s) ==> r == s)
  {
    StripRight(StripLeft(s))
  }

  /** `text.find(c)` of one character. */
  function FindChar(text: string, c: char): (r: Option<nat>)
    ensures r.None? ==> c !in text
    ensures r.Some? ==> r.value < |text| && text[r.value] == c && c !in text[..r.value]
  {
    if text == "" then None
    else if text[0] == c then Some(0)
    else match FindChar(text[1..], c)
      case None => None
      case Some(k) => assert text[..k + 1] == [text[0]] + text[1..][..k]; Some(k + 1)
  }

  function Delta(c: char): int {
    if c == '<' || c == '(' then 1 else if c == '>' || c == ')' then -1 else 0
  }

  /** The text between the commas met at bracket depth 0. */
  function Pieces(text: string, depth: int): (r: seq<string>)
    ensures |r| >= 1 && forall p | p in r :: |p| <= |text|
  {
    if text == "" then [""]
    else
      var d := depth + Delta(text[0]);
      var rest := Pieces(text[1..], d);
      if text[0] == ',' && d == 0 then [""] + rest else [[text[0]] + rest[0]] + rest[1..]
  }

  /** `[p.strip() for p in pieces if p.strip()]`. */
  function Trimmed(pieces: seq<string>): (r: seq<string>)
    ensures forall p | p in r :: p != "" && Stripped(p)
  {
    if pieces == [] then []
    else
      var rest := Trimmed(pieces[1..]);
      if Strip(pieces[0]) == "" then rest else [Strip(pieces[0])] + rest
  }

  function TopLevelParts(text: string): (r: seq<string>)
    ensures forall p | p in r :: p != "" && Stripped(p) && |p| <= |text|
  {
    TrimmedBound(Pieces(text, 0), |text|);
    Trimmed(Pieces(text, 0))
  }

  lemma {:induction false} TrimmedBound(pieces: seq<string>, n: nat)
    requires forall p | p in pieces :: |p| <= n
    ensures forall p | p in Trimmed(pieces) :: |p| <= n
  {
    if pieces != [] {
      assert pieces[0] in pieces;
      TrimmedBound(pieces[1..], n);
    }
  }

  /** The first bracket decides: `<` before `(`, and a text not closed by its match has no arguments. */
  function SplitHeadArgs(text: string): (r: (string, seq<string>))
    requires text != "" && Stripped(text)
    ensures forall p | p in r.1 :: p != "" && Stripped(p) && |p| < |text|
  {
    match FindChar(text, '<')
    case Some(k) =>
      if text[|text| - 1] == '>' then (Strip(text[..k]), TopLevelParts(text[k + 1..|text| - 1])) else (text, [])
    case None =>
      match FindChar(text, '(')
      case Some(k) =>
        if text[|text| - 1] == ')' then (Strip(text[..k]), TopLevelParts(text[k + 1..|text| - 1])) else (text, [])
      case None => (text, [])
  }

  predicate IsDigit(c: char) { '0' <= c <= '9' }

  /** Digits with single underscores between them, most significant first; `before` tells whether a digit precedes. */
  function Number(s: string, before: bool, value: nat): Option<nat> {
    if s == "" then (if before then Some(value) else None)
    else if IsDigit(s[0]) then Number(s[1..], true, 10 * value + (s[0] as int - '0' as int))
    else if s[0] == '_' && before then Number(s[1..], false, value)
    else None
  }

  /** `int(s)` of a stripped text. */
  function IntOf(s: string): Option<int> {
    if s != "" && (s[0] == '+' || s[0] == '-') then
      match Number(s[1..], false, 0)
      case Some(n) => Some(if s[0] == '-' then -(n as int) else n)
      case None => None
    else
      match Number(s, false, 0)
      case Some(n) => Some(n)
      case None => None
  }

  /** `str(n)`. */
  function PrintInt(n: int): string { if n < 0 then "-" + Digits(-n) else Digits(n) }

  /** The name and the type of a STRUCT field: `name:type`, or `name type` when nothing follows a colon. */
  function FieldParts(arg: string): (r: (string, string))
    ensures |r.1| <= |arg|
  {
    var colon := FindChar(arg, ':');
    if colon.Some? && arg[colon.value + 1..] != "" then
      (Strip(arg[..colon.value]), Strip(arg[colon.value + 1..]))
    else
      var a := Strip(arg);
      match FindChar(a, ' ')
      case Some(k) => (Strip(a[..k]), Strip(a[k + 1..]))
      case None => (a, "")
  }

  // ---------------------------------------------------------------- the parser

  function DecimalOf(args: seq<string>, text: string): Result<Ty> {
    if args == [] then Ok(Decimal(10, 0))
    else if IntOf(Strip(args[0])).None? || (|args| > 1 && IntOf(Strip(args[1])).None?) then
      Err(text, DecimalNotInteger)
    else if |args| > 2 then Err(text, DecimalArity)
    else Ok(Decimal(IntOf(Strip(args[0])).value, if |args| > 1 then IntOf(Strip(args[1])).value else 0))
  }

  function ScalarOf(head: string, args: seq<string>, text: string): Result<Ty> {
    var upper := Upper(head);
    match KindOf(upper)
    case None => Err(text, UnknownType(head))
    case Some(k) =>
      if args != [] && upper == "CHAR" then Ok(Sized(CharHead, Strip(args[0])))
      else if args != [] && upper == "VARCHAR" then Ok(Sized(VarcharHead, Strip(args[0])))
      else Ok(Scalar(k))
  }

  /** The type a text denotes. */
  function Read(text: string): Result<Ty>
    decreases |text|, 2, 0
  {
    var raw := Strip(text);
    if raw == "" then Err(text, EmptyType)
    else if |raw| >= 2 && raw[|raw| - 2..] == "[]" then
      match Read(raw[..|raw| - 2])
      case Ok(e) => Ok(Array(e))
      case Err(t, why) => Err(t, why)
    else
      var (head, args) := SplitHeadArgs(raw);
      ReadHead(head, args, text)
  }

  /** The type a head and its arguments denote. */
  function ReadHead(head: string, args: seq<string>, text: string): Result<Ty>
    requires forall a | a in args :: |a| < |text|
    decreases |text|, 1, 0
  {
    var upper := Upper(head);
    if upper == "ARRAY" then
      if |args| != 1 then Err(text, ArrayArity)
      else match Read(args[0])
        case Ok(e) => Ok(Array(e))
        case Err(t, why) => Err(t, why)
    else if upper == "MAP" then
      if |args| != 2 then Err(text, MapArity)
      else match Read(args[0])
        case Err(t, why) => Err(t, why)
        case Ok(k) =>
          match Read(args[1])
          case Err(t, why) => Err(t, why)
          case Ok(v) => Ok(Map(k, v))
    else if upper == "STRUCT" then
      if args == [] then Err(text, NoFields)
      else match ReadFields(args, text)
        case Err(t, why) => Err(t, why)
        case Ok(fs) => Ok(Struct(fs))
    else if upper == "DECIMAL" || upper == "NUMERIC" then DecimalOf(args, text)
    else ScalarOf(head, args, text)
  }

  function ReadFields(args: seq<string>, text: string): (r: Result<seq<Field>>)
    requires forall a | a in args :: |a| < |text|
    ensures r.Ok? ==> |r.value| == |args|
    decreases |text|, 0, |args|
  {
    if args == [] then Ok([])
    else
      var (name, fieldText) := FieldParts(args[0]);
      if name == "" || fieldText == "" then Err(text, MalformedField(Strip(args[0])))
      else match Read(fieldText)
        case Err(t, why) => Err(t, why)
        case Ok(ty) =>
          match ReadFields(args[1..], text)
          case Err(t, why) => Err(t, why)
          case Ok(fs) => Ok([Field(name, ty)] + fs)
  }

  // ---------------------------------------------------------------- the printers

  /** The canonical type text, in Spark's spelling. */
  function Canon(ty: Ty): string {
    match ty
    case Scalar(k) => KindText(k)
    case Sized(h, n) => SizedText(h) + "(" + n + ")"
    case Decimal(p, s) => "decimal(" + PrintInt(p) + "," + PrintInt(s) + ")"
    case Array(e) => "array<" + Canon(e) + ">"
    case Map(k, v) => "map<" + Canon(k) + "," + Canon(v) + ">"
    case Struct(fs) => "struct<" + Join(CanonFields(fs), ",") + ">"
  }

  function CanonFields(fs: seq<Field>): (r: seq<string>)
    ensures |r| == |fs|
  {
    if fs == [] then [] else [fs[0].name + ":" + Canon(fs[0].ty)] + CanonFields(fs[1..])
  }

  /** DuckDB's spelling of the physical type, field names as they are. */
  function DuckText(ty: Ty): string {
    match ty
    case Scalar(k) => KindDdl(k)
    case Sized(_, _) => "VARCHAR"
    case Decimal(p, s) => "DECIMAL(" + PrintInt(p) + "," + PrintInt(s) + ")"
    case Array(e) => DuckText(e) + "[]"
    case Map(k, v) => "MAP(" + DuckText(k) + ", " + DuckText(v) + ")"
    case Struct(fs) => "STRUCT(" + Join(DuckFields(fs), ", ") + ")"
  }

  function DuckFields(fs: seq<Field>): (r: seq<string>)
    ensures |r| == |fs|
  {
    if fs == [] then [] else [fs[0].name + " " + DuckText(fs[0].ty)] + DuckFields(fs[1..])
  }

  /** The DDL sent to DuckDB: its spelling with every field name between double quotes. */
  function Ddl(ty: Ty): string {
    match ty
    case Scalar(k) => KindDdl(k)
    case Sized(_, _) => "VARCHAR"
    case Decimal(p, s) => "DECIMAL(" + PrintInt(p) + "," + PrintInt(s) + ")"
    case Array(e) => Ddl(e) + "[]"
    case Map(k, v) => "MAP(" + Ddl(k) + ", " + Ddl(v) + ")"
    case Struct(fs) => "STRUCT(" + Join(DdlFields(fs), ", ") + ")"
  }

  function DdlFields(fs: seq<Field>): (r: seq<string>)
    ensures |r| == |fs|
  {
    if fs == [] then [] else ["\"" + fs[0].name + "\" " + Ddl(fs[0].ty)] + DdlFields(fs[1..])
  }

  function TypeName(ty: Ty): string {
    match ty
    case Scalar(k) => KindTypeName(k)
    case Sized(_, _) => "STRING"
    case Decimal(_, _) => "DECIMAL"
    case Array(_) => "ARRAY"
    case Map(_, _) => "MAP"
    case Struct(_) => "STRUCT"
  }

  function Json(ty: Ty): SparkType {
    match ty
    case Scalar(k) => SimpleJson(KindJson(k))
    case Sized(_, _) => SimpleJson("string")
    case Decimal(p, s) => SimpleJson("decimal(" + PrintInt(p) + "," + PrintInt(s) + ")")
    case Array(e) => ArrayJson(Json(e))
    case Map(k, v) => MapJson(Json(k), Json(v))
    case Struct(fs) => StructJson(JsonFields(fs))
  }

  function JsonFields(fs: seq<Field>): seq<SparkField> {
    if fs == [] then [] else [SparkField(fs[0].name, Json(fs[0].ty))] + JsonFields(fs[1..])
  }

  function Render(ty: Ty): Spec {
    Spec(Ddl(ty), TypeName(ty), Canon(ty),
         if ty.Decimal? then Some(ty.precision) else None,
         if ty.Decimal? then Some(ty.scale) else None,
         Json(ty))
  }

  /** What normalising a type text yields: the type it denotes, rendered. */
  function Normalize(text: string): Result<Spec> {
    Rendered(Read(text))
  }

  function Rendered(r: Result<Ty>): Result<Spec> {
    match r
    case Ok(ty) => Ok(Render(ty))
    case Err(t, why) => Err(t, why)
  }

  // ---------------------------------------------------------------- the loops

  function Extend(prefix: string, pieces: seq<string>): seq<string>
    requires |pieces| >= 1
  {
    [prefix + pieces[0]] + pieces[1..]
  }

  /** One character read by the splitting loop. */
  lemma PieceStep(parts: seq<string>, current: string, rest: string, depth: int)
    requires rest != ""
    ensures var d := depth + Delta(rest[0]);
      parts + Extend(current, Pieces(rest, depth)) ==
        if rest[0] == ',' && d == 0 then (parts + [current]) + Extend("", Pieces(rest[1..], d))
        else parts + Extend(current + [rest[0]], Pieces(rest[1..], d))
  {
    hide Delta, Extend, Pieces;
    var d := depth + Delta(rest[0]);
    var now := Pieces(rest[1..], d);
    PiecesCons(rest, depth);
    ExtendCut(parts, current, now);
    ExtendChar(current, rest[0], now);
  }

  lemma ExtendCut(parts: seq<string>, current: string, now: seq<string>)
    requires |now| >= 1
    ensures parts + Extend(current, [""] + now) == (parts + [current]) + Extend("", now)
  {
    assert "" + now[0] == now[0] && [now[0]] + now[1..] == now;
    assert current + "" == current && ([""] + now)[1..] == now;
    assert parts + ([current] + now) == (parts + [current]) + now;
  }

  lemma ExtendChar(current: string, c: char, now: seq<string>)
    requires |now| >= 1
    ensures Extend(current, [[c] + now[0]] + now[1..]) == Extend(current + [c], now)
  {
    assert current + ([c] + now[0]) == (current + [c]) + now[0];
  }

  lemma PiecesCons(text: string, depth: int)
    requires text != ""
    ensures var d := depth + Delta(text[0]);
      Pieces(text, depth) ==
        if text[0] == ',' && d == 0 then [""] + Pieces(text[1..], d)
        else [[text[0]] + Pieces(text[1..], d)[0]] + Pieces(text[1..], d)[1..]
  {
  }

  lemma PiecesEmpty(rest: string, depth: int, current: string)
    requires rest == ""
    ensures Extend(current, Pieces(rest, depth)) == [current]
  {
    assert current + "" == current;
  }

  method SplitTopLevel(text: string) returns (r: seq<string>)
    ensures r == TopLevelParts(text)
  {
    hide Pieces, Trimmed;
    var parts: seq<string>, depth, current: string, i := [], 0, "", 0;
    assert text[0..] == text;
    ghost var all := Pieces(text, 0);
    assert "" + all[0] == all[0] && [all[0]] + all[1..] == all;
    while i < |text|
      invariant i <= |text|
      invariant Pieces(text, 0) == parts + Extend(current, Pieces(text[i..], depth))
    {
      var ch := text[i];
      assert text[i..][0] == ch && text[i..][1..] == text[i + 1..];
      PieceStep(parts, current, text[i..], depth);
      if ch == '<' || ch == '(' {
        depth := depth + 1;
      } else if ch == '>' || ch == ')' {
        depth := depth - 1;
      }
      if ch == ',' && depth == 0 {
        parts := parts + [current];
        current := "";
      } else {
        current := current + [ch];
      }
      i := i + 1;
    }
    PiecesEmpty(text[i..], depth, current);
    parts := parts + [current];
    r := Trimmed(parts);
  }

  /** The parser as it runs: texts are built on the way up, without a syntax tree. */
  method ParseType(text: string) returns (r: Result<Spec>)
    ensures r == Normalize(text)
    decreases |text|, 1
  {
    hide Strip, SplitHeadArgs, Upper, ReadFields, DecimalOf, ScalarOf, Render, ArrayOf;
    var raw := Strip(text);
    if raw == "" {
      return Err(text, EmptyType);
    }
    if |raw| >= 2 && raw[|raw| - 2..] == "[]" {
      var element := ParseType(raw[..|raw| - 2]);
      ArrayRendered(Read(raw[..|raw| - 2]));
      return ArrayOf(element);
    }
    var (head, args) := SplitHeadArgs(raw);
    assert Read(text) == ReadHead(head, args, text);
    var upper := Upper(head);
    if upper == "ARRAY" {
      if |args| != 1 {
        return Err(text, ArrayArity);
      }
      var element := ParseType(args[0]);
      ArrayRendered(Read(args[0]));
      return ArrayOf(element);
    }
    if upper == "MAP" {
      if |args| != 2 {
        return Err(text, MapArity);
      }
      var key := ParseType(args[0]);
      if key.Err? {
        return key;
      }
      var value := ParseType(args[1]);
      if value.Err? {
        return value;
      }
      var k, v := key.value, value.value;
      MapRendered(Read(args[0]).value, Read(args[1]).value);
      return Ok(Spec("MAP(" + k.ddl + ", " + v.ddl + ")", "MAP", "map<" + k.typeText + "," + v.typeText + ">",
                     None, None, MapJson(k.json, v.json)));
    }
    if upper == "STRUCT" {
      r := StructOf(args, text);
      return;
    }
    if upper == "DECIMAL" || upper == "NUMERIC" {
      r := DecimalSpec(args, text);
      return;
    }
    r := ScalarSpec(head, args, text);
  }

  method DecimalSpec(args: seq<string>, text: string) returns (r: Result<Spec>)
    ensures r == Rendered(DecimalOf(args, text))
  {
    hide Strip, IntOf, PrintInt, Ddl, Canon;
    var precision, scale := 10, 0;
    if args != [] {
      var p := IntOf(Strip(args[0]));
      if p.None? {
        return Err(text, DecimalNotInteger);
      }
      precision := p.value;
      if |args| > 1 {
        var q := IntOf(Strip(args[1]));
        if q.None? {
          return Err(text, DecimalNotInteger);
        }
        scale := q.value;
      }
      if |args| > 2 {
        return Err(text, DecimalArity);
      }
    }
    var spelled := "(" + PrintInt(precision) + "," + PrintInt(scale) + ")";
    DecimalSpelling(precision, scale);
    r := Ok(Spec("DECIMAL" + spelled, "DECIMAL", "decimal" + spelled, Some(precision), Some(scale),
                 SimpleJson("decimal" + spelled)));
  }

  method ScalarSpec(head: string, args: seq<string>, text: string) returns (r: Result<Spec>)
    ensures r == Rendered(ScalarOf(head, args, text))
  {
    hide Strip, Upper;
    var upper := Upper(head);
    var kind := KindOf(upper);
    if kind.None? {
      return Err(text, UnknownType(head));
    }
    var canonical := KindText(kind.value);
    if args != [] && (upper == "CHAR" || upper == "VARCHAR") {
      canonical := (if upper == "CHAR" then "char" else "varchar") + "(" + Strip(args[0]) + ")";
    }
    r := Ok(Spec(KindDdl(kind.value), KindTypeName(kind.value), canonical, None, None,
                 SimpleJson(KindJson(kind.value))));
  }

  lemma DecimalSpelling(p: int, s: int)
    ensures "DECIMAL" + ("(" + PrintInt(p) + "," + PrintInt(s) + ")") == Ddl(Decimal(p, s))
    ensures "decimal" + ("(" + PrintInt(p) + "," + PrintInt(s) + ")") == Canon(Decimal(p, s))
    ensures Json(Decimal(p, s)) == SimpleJson(Canon(Decimal(p, s)))
  {
    var a, b := PrintInt(p), PrintInt(s);
    assert "DECIMAL" + ("(" + a + "," + b + ")") == "DECIMAL(" + a + "," + b + ")";
    assert "decimal" + ("(" + a + "," + b + ")") == "decimal(" + a + "," + b + ")";
  }

  function ArrayOf(element: Result<Spec>): Result<Spec> {
    match element
    case Err(t, why) => Err(t, why)
    case Ok(e) => Ok(Spec(e.ddl + "[]", "ARRAY", "array<" + e.typeText + ">", None, None, ArrayJson(e.json)))
  }

  lemma ArrayRendered(element: Result<Ty>)
    ensures element.Ok? ==> ArrayOf(Rendered(element)) == Ok(Render(Array(element.value)))
    ensures element.Err? ==> ArrayOf(Rendered(element)) == Err(element.text, element.reason)
  {
  }

  lemma MapRendered(key: Ty, value: Ty)
    ensures Render(Map(key, value)) == Spec(
      "MAP(" + Ddl(key) + ", " + Ddl(value) + ")", "MAP", "map<" + Canon(key) + "," + Canon(value) + ">",
      None, None, MapJson(Json(key), Json(value)))
    ensures Render(key).ddl == Ddl(key) && Render(key).typeText == Canon(key) && Render(key).json == Json(key)
    ensures Render(value).ddl == Ddl(value) && Render(value).typeText == Canon(value)
    ensures Render(value).json == Json(value)
  {
  }

  lemma StructRendered(fs: seq<Field>)
    ensures Render(Struct(fs)) == Spec(
      "STRUCT(" + Join(DdlFields(fs), ", ") + ")", "STRUCT", "struct<" + Join(CanonFields(fs), ",") + ">",
      None, None, StructJson(JsonFields(fs)))
  {
  }

  /** `ReadFields` with some fields already read. */
  ghost function Resumed(done: seq<Field>, rest: Result<seq<Field>>): Result<seq<Field>> {
    match rest
    case Err(t, why) => Err(t, why)
    case Ok(fs) => Ok(done + fs)
  }

  lemma ReadNoFields(text: string)
    ensures ReadFields([], text) == Ok([])
  {
  }

  /** One field read by the loop, or the error it stops on. */
  lemma FieldRead(done: seq<Field>, args: seq<string>, i: nat, text: string)
    requires i < |args| && forall a | a in args :: |a| < |text|
    ensures var (name, fieldText) := FieldParts(args[i]);
      var field := Read(fieldText);
      Resumed(done, ReadFields(args[i..], text)) ==
        if name == "" || fieldText == "" then Err(text, MalformedField(Strip(args[i])))
        else match field
          case Err(t, why) => Err(t, why)
          case Ok(ty) => Resumed(done + [Field(name, ty)], ReadFields(args[i + 1..], text))
  {
    hide Strip, FieldParts, Read;
    assert args[i..][0] == args[i] && args[i..][1..] == args[i + 1..];
    var (name, fieldText) := FieldParts(args[i]);
    var rest := ReadFields(args[i + 1..], text);
    if Read(fieldText).Ok? && rest.Ok? {
      var next := Field(name, Read(fieldText).value);
      assert done + ([next] + rest.value) == (done + [next]) + rest.value;
    }
  }

  method StructOf(args: seq<string>, text: string) returns (r: Result<Spec>)
    requires forall a | a in args :: |a| < |text|
    ensures r == if args == [] then Err(text, NoFields)
                 else match ReadFields(args, text)
                   case Err(t, why) => Err(t, why)
                   case Ok(fs) => Ok(Render(Struct(fs)))
    decreases |text|, 0
  {
    ReadNoFields(text);
    hide Strip, FieldParts, Read, ReadFields, Ddl, Canon, Json;
    if args == [] {
      return Err(text, NoFields);
    }
    var fields: seq<SparkField>, ddlParts: seq<string>, canonParts: seq<string> := [], [], [];
    ghost var done: seq<Field> := [];
    var i := 0;
    assert args[0..] == args && forall fs: seq<Field> :: [] + fs == fs;
    while i < |args|
      invariant i <= |args|
      invariant ReadFields(args, text) == Resumed(done, ReadFields(args[i..], text))
      invariant ddlParts == DdlFields(done) && canonParts == CanonFields(done) && fields == JsonFields(done)
    {
      var (name, fieldText) := FieldParts(args[i]);
      FieldRead(done, args, i, text);
      if name == "" || fieldText == "" {
        return Err(text, MalformedField(Strip(args[i])));
      }
      var field := ParseType(fieldText);
      if field.Err? {
        return field;
      }
      ghost var next := Field(name, Read(fieldText).value);
      FieldsAppend(done, next);
      ddlParts := ddlParts + ["\"" + name + "\" " + field.value.ddl];
      canonParts := canonParts + [name + ":" + field.value.typeText];
      fields := fields + [SparkField(name, field.value.json)];
      done := done + [next];
      i := i + 1;
    }
    assert args[i..] == [] && done + [] == done;
    StructRendered(done);
    r := Ok(Spec("STRUCT(" + Join(ddlParts, ", ") + ")", "STRUCT", "struct<" + Join(canonParts, ",") + ">",
                 None, None, StructJson(fields)));
  }

  lemma {:induction false} FieldsAppend(fs: seq<Field>, f: Field)
    ensures DdlFields(fs + [f]) == DdlFields(fs) + ["\"" + f.name + "\" " + Ddl(f.ty)]
    ensures CanonFields(fs + [f]) == CanonFields(fs) + [f.name + ":" + Canon(f.ty)]
    ensures JsonFields(fs + [f]) == JsonFields(fs) + [SparkField(f.name, Json(f.ty))]
  {
    if fs == [] {
      assert fs + [f] == [f];
    } else {
      FieldsAppend(fs[1..], f);
      assert (fs + [f])[1..] == fs[1..] + [f];
    }
  }
}
