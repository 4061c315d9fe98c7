/** The table of scalar types written out, and what a type text without brackets comes to. */
module TypeTable {
  import opened Text
  import opened ColumnTypes
  import opened TypeLaws

  /** DuckDB's type, the Unity Catalog name, the Spark JSON name and the type text. */
  datatype Row = Row(ddl: string, typeName: string, json: string, text: string)

  /** The rows of the table, one for each alias. */
  function RowOf(alias: string): Option<Row> {
    match alias
    case "STRING" => Some(Row("VARCHAR", "STRING", "string", "string"))
    case "VARCHAR" => Some(Row("VARCHAR", "STRING", "string", "string"))
    case "TEXT" => Some(Row("VARCHAR", "STRING", "string", "string"))
    case "CHAR" => Some(Row("VARCHAR", "STRING", "string", "string"))
    case "INT" => Some(Row("INTEGER", "INT", "integer", "int"))
    case "INTEGER" => Some(Row("INTEGER", "INT", "integer", "int"))
    case "LONG" => Some(Row("BIGINT", "LONG", "long", "bigint"))
    case "BIGINT" => Some(Row("BIGINT", "LONG", "long", "bigint"))
    case "SHORT" => Some(Row("SMALLINT", "SHORT", "short", "smallint"))
    case "SMALLINT" => Some(Row("SMALLINT", "SHORT", "short", "smallint"))
    case "BYTE" => Some(Row("TINYINT", "BYTE", "byte", "tinyint"))
    case "TINYINT" => Some(Row("TINYINT", "BYTE", "byte", "tinyint"))
    case "FLOAT" => Some(Row("FLOAT", "FLOAT", "float", "float"))
    case "REAL" => Some(Row("FLOAT", "FLOAT", "float", "float"))
    case "DOUBLE" => Some(Row("DOUBLE", "DOUBLE", "double", "double"))
    case "BOOLEAN" => Some(Row("BOOLEAN", "BOOLEAN", "boolean", "boolean"))
    case "BOOL" => Some(Row("BOOLEAN", "BOOLEAN", "boolean", "boolean"))
    case "DATE" => Some(Row("DATE", "DATE", "date", "date"))
    case "TIMESTAMP" => Some(Row("TIMESTAMP", "TIMESTAMP", "timestamp", "timestamp"))
    case "TIMESTAMP_NTZ" => Some(Row("TIMESTAMP", "TIMESTAMP_NTZ", "timestamp_ntz", "timestamp_ntz"))
    case "BINARY" => Some(Row("BLOB", "BINARY", "binary", "binary"))
    case "BLOB" => Some(Row("BLOB", "BINARY", "binary", "binary"))
    case "INTERVAL" => Some(Row("INTERVAL", "INTERVAL", "interval", "interval"))
    case "VARIANT" => Some(Row("VARIANT", "VARIANT", "variant", "variant"))
    case "NULL" => Some(Row("VARCHAR", "NULL", "void", "void"))
    case _ => None
  }

  function KindRow(k: Kind): Row { Row(KindDdl(k), KindTypeName(k), KindJson(k), KindText(k)) }

  /** On every word the parser's kinds and the table agree. */
  lemma TableOfKinds(u: string)
    ensures RowOf(u) == match KindOf(u) case None => None case Some(k) => Some(KindRow(k))
  {
    RowKind(u);
    KindHasRow(u);
    hide RowOf, KindOf, KindRow;
  }

  const FIRST_ROWS := {"STRING", "VARCHAR", "TEXT", "CHAR", "INT", "INTEGER", "LONG", "BIGINT", "SHORT", "SMALLINT"}

  lemma RowKind(u: string)
    ensures RowOf(u).Some? ==> KindOf(u).Some? && RowOf(u).value == KindRow(KindOf(u).value)
  {
    if u in FIRST_ROWS {
      FirstRowKind(u);
    } else {
      OtherRowKind(u);
    }
    hide *;
  }

  lemma FirstRowKind(u: string)
    requires u in FIRST_ROWS
    ensures RowOf(u).Some? && KindOf(u).Some? && RowOf(u).value == KindRow(KindOf(u).value)
  {
  }

  lemma OtherRowKind(u: string)
    requires u !in FIRST_ROWS
    ensures RowOf(u).Some? ==> KindOf(u).Some? && RowOf(u).value == KindRow(KindOf(u).value)
  {
  }

  lemma KindHasRow(u: string)
    ensures KindOf(u).Some? ==> RowOf(u).Some?
  {
  }

  /** The words that are spelled in the parser itself. */
  predicate Known(u: string) {
    u in {"ARRAY", "MAP", "STRUCT", "DECIMAL", "NUMERIC"} || RowOf(u).Some?
  }

  /** A text neither `T[]` nor with brackets around arguments. */
  predicate Bare(s: string) { '<' !in s && '(' !in s && !(|s| >= 2 && s[|s| - 2..] == "[]") }

  lemma {:induction false} UpperKeeps(s: string, c: char)
    requires c in s && UpperChar(c) == [c]
    ensures c in Upper(s)
  {
    if s[0] != c {
      assert s == [s[0]] + s[1..];
      UpperKeeps(s[1..], c);
    } else {
      assert Upper(s)[0] == c;
    }
  }

  predicate IsCapital(c: char) { 'A' <= c <= 'Z' || c == '_' }

  /** Capital letters and underscores only, from position `i` on. */
  predicate CapitalsFrom(s: string, i: nat)
    requires i <= |s|
    decreases |s| - i
  {
    i == |s| || (IsCapital(s[i]) && CapitalsFrom(s, i + 1))
  }

  lemma {:induction false} Capitals(s: string, i: nat)
    requires i <= |s| && CapitalsFrom(s, i)
    ensures forall k | i <= k < |s| :: IsCapital(s[k])
    ensures PlainFrom(s, i)
    decreases |s| - i
  {
    if i < |s| {
      Capitals(s, i + 1);
    }
  }

  lemma HeadCapitals(u: string)
    requires u in {"ARRAY", "MAP", "STRUCT", "DECIMAL", "NUMERIC"}
    ensures CapitalsFrom(u, 0)
  {
  }

  lemma RowCapitals(u: string)
    requires RowOf(u).Some?
    ensures CapitalsFrom(u, 0)
  {
  }

  lemma KnownPlain(u: string)
    requires Known(u)
    ensures PlainFrom(u, 0) && Upper(u) == u
  {
    hide RowOf, Upper;
    if RowOf(u).Some? {
      RowCapitals(u);
    } else {
      HeadCapitals(u);
    }
    Capitals(u, 0);
    UpperFixed(u);
  }

  /** A text whose upper case is a known word has no brackets. */
  lemma KnownBare(s: string)
    requires Known(Upper(s))
    ensures Bare(s)
  {
    hide Known, Upper;
    KnownPlain(Upper(s));
    PlainChars(Upper(s), 0);
    if '<' in s {
      UpperKeeps(s, '<');
      assert false;
    }
    if '(' in s {
      UpperKeeps(s, '(');
      assert false;
    }
    if |s| >= 2 && s[|s| - 2..] == "[]" {
      assert s[|s| - 2..][1] == s[|s| - 1];
      UpperKeeps(s, ']');
      assert false;
    }
  }

  lemma BareHead(text: string)
    requires Strip(text) != "" && Bare(Strip(text))
    ensures Read(text) == ReadHead(Strip(text), [], text)
  {
    FindNone(Strip(text), '<');
    FindNone(Strip(text), '(');
    assert SplitHeadArgs(Strip(text)) == (Strip(text), []);
    hide SplitHeadArgs, ReadHead, Strip;
  }

  /** A scalar with whatever arguments: only CHAR and VARCHAR keep the first one, in the type text. */
  lemma HeadMeaning(head: string, args: seq<string>, text: string)
    requires RowOf(Upper(head)).Some? && forall a | a in args :: |a| < |text|
    ensures
      var row := RowOf(Upper(head)).value;
      var name := if args == [] then row.text
        else if Upper(head) == "CHAR" then "char(" + Strip(args[0]) + ")"
        else if Upper(head) == "VARCHAR" then "varchar(" + Strip(args[0]) + ")"
        else row.text;
      Rendered(ReadHead(head, args, text)) == Ok(Spec(row.ddl, row.typeName, name, None, None, SimpleJson(row.json)))
  {
    TableOfKinds(Upper(head));
    RowIsNoHead(Upper(head));
    SizedRows();
    HeadIsScalar(head, args, text);
    var k := KindOf(Upper(head)).value;
    ScalarSpelled(k);
    hide RowOf, KindOf, Upper, Strip, KindDdl, KindTypeName, KindJson, KindText, ReadHead, Render;
    if args != [] {
      SizedSpelled(Strip(args[0]));
    }
  }

  lemma HeadIsScalar(head: string, args: seq<string>, text: string)
    requires !IsHead(Upper(head)) && forall a | a in args :: |a| < |text|
    ensures ReadHead(head, args, text) == ScalarOf(head, args, text)
  {
    hide Upper, ScalarOf;
  }

  lemma ScalarSpelled(k: Kind)
    ensures Render(Scalar(k)) ==
      Spec(KindDdl(k), KindTypeName(k), KindText(k), None, None, SimpleJson(KindJson(k)))
  {
    hide KindDdl, KindTypeName, KindText, KindJson;
  }

  lemma SizedSpelled(n: string)
    ensures Render(Sized(CharHead, n)) == Spec("VARCHAR", "STRING", "char(" + n + ")", None, None, SimpleJson("string"))
    ensures Render(Sized(VarcharHead, n)) ==
      Spec("VARCHAR", "STRING", "varchar(" + n + ")", None, None, SimpleJson("string"))
  {
    assert "char" + "(" + n + ")" == "char(" + n + ")";
    assert "varchar" + "(" + n + ")" == "varchar(" + n + ")";
  }

  lemma RowIsNoHead(u: string)
    requires RowOf(u).Some?
    ensures !IsHead(u)
  {
  }

  lemma SizedRows()
    ensures RowOf("CHAR") == RowOf("VARCHAR") == Some(Row("VARCHAR", "STRING", "string", "string"))
  {
  }

  /** Every text that spells an alias, in any case and with blanks around it, normalises to the alias's row. */
  lemma AliasMeaning(text: string)
    requires RowOf(Upper(Strip(text))).Some?
    ensures
      var row := RowOf(Upper(Strip(text))).value;
      Normalize(text) == Ok(Spec(row.ddl, row.typeName, row.text, None, None, SimpleJson(row.json)))
  {
    KnownBare(Strip(text));
    BareHead(text);
    HeadMeaning(Strip(text), [], text);
    hide RowOf, Upper, Strip, ReadHead, Read;
  }

  lemma {:induction false} StripRightPadded(p: string, tail: string)
    requires Blank(tail) && (p == "" || !IsSpace(p[|p| - 1]))
    ensures StripRight(p + tail) == StripRight(p)
  {
    if tail == "" {
      assert p + tail == p;
    } else {
      var t := tail[..|tail| - 1];
      StripRightPadded(p, t);
      assert (p + tail)[..|p + tail| - 1] == p + t;
    }
  }

  lemma StripPaddedBoth(pad: string, p: string, tail: string)
    requires Blank(pad) && Blank(tail) && p != "" && Stripped(p)
    ensures Strip(pad + p + tail) == p
  {
    StripLeftOnly(pad, p + tail);
    assert pad + (p + tail) == pad + p + tail;
    StripRightPadded(p, tail);
  }

  lemma {:induction false} StripLeftOnly(pad: string, p: string)
    requires Blank(pad) && p != "" && !IsSpace(p[0])
    ensures StripLeft(pad + p) == p
  {
    if pad == "" {
      assert pad + p == p;
    } else {
      StripLeftOnly(pad[1..], p);
      assert (pad + p)[1..] == pad[1..] + p;
    }
  }

  /** The blank characters of ASCII. */
  predicate AsciiBlank(s: string) { forall c | c in s :: c in " \t\n\r\U{000B}\U{000C}\U{001C}\U{001D}\U{001E}\U{001F}" }

  /** An alias in upper case between any ASCII blanks normalises to its row. */
  lemma PaddedAlias(pad: string, alias: string, tail: string)
    requires AsciiBlank(pad) && AsciiBlank(tail) && RowOf(alias).Some?
    ensures
      var row := RowOf(alias).value;
      Normalize(pad + alias + tail) == Ok(Spec(row.ddl, row.typeName, row.text, None, None, SimpleJson(row.json)))
  {
    assert alias != "";
    KnownPlain(alias);
    hide RowOf;
    PlainWord(alias);
    StripPaddedBoth(pad, alias, tail);
    AliasMeaning(pad + alias + tail);
  }

  const DEFAULT_DECIMAL := Spec("DECIMAL(10,0)", "DECIMAL", "decimal(10,0)", Some(10), Some(0), SimpleJson("decimal(10,0)"))

  lemma DefaultDecimal(text: string)
    ensures Rendered(DecimalOf([], text)) == Ok(DEFAULT_DECIMAL)
  {
    assert PrintInt(10) == "10" by {
      assert Digits(10) == Digits(1) + [Digit(0)];
      assert Digit(1) == '1' && Digit(0) == '0';
    }
    assert PrintInt(0) == "0" by { assert Digit(0) == '0'; }
    hide PrintInt;
    DecimalSpelling(10, 0);
    assert Ddl(Decimal(10, 0)) == "DECIMAL(" + "10" + "," + "0" + ")" == "DECIMAL(10,0)";
    assert Canon(Decimal(10, 0)) == "decimal(" + "10" + "," + "0" + ")" == "decimal(10,0)";
  }

  /** What every text without brackets comes to. */
  lemma BareMeaning(text: string)
    requires Bare(Strip(text))
    ensures
      var s := Strip(text);
      Normalize(text) ==
        if s == "" then Err(text, EmptyType)
        else match Upper(s)
          case "ARRAY" => Err(text, ArrayArity)
          case "MAP" => Err(text, MapArity)
          case "STRUCT" => Err(text, NoFields)
          case "DECIMAL" => Ok(DEFAULT_DECIMAL)
          case "NUMERIC" => Ok(DEFAULT_DECIMAL)
          case u =>
            match RowOf(u)
            case None => Err(text, UnknownType(s))
            case Some(row) => Ok(Spec(row.ddl, row.typeName, row.text, None, None, SimpleJson(row.json)))
  {
    var s := Strip(text);
    if s != "" {
      BareHead(text);
      BareHeads(s, text);
      TableOfKinds(Upper(s));
      if RowOf(Upper(s)).Some? {
        RowIsNoHead(Upper(s));
        HeadMeaning(s, [], text);
      } else if !IsHead(Upper(s)) {
        HeadIsScalar(s, [], text);
      }
    }
    hide RowOf, KindOf, Upper, Strip, ReadHead, Render;
  }

  lemma BareHeads(s: string, text: string)
    ensures Upper(s) == "ARRAY" ==> Rendered(ReadHead(s, [], text)) == Err(text, ArrayArity)
    ensures Upper(s) == "MAP" ==> Rendered(ReadHead(s, [], text)) == Err(text, MapArity)
    ensures Upper(s) == "STRUCT" ==> Rendered(ReadHead(s, [], text)) == Err(text, NoFields)
    ensures Upper(s) in {"DECIMAL", "NUMERIC"} ==> Rendered(ReadHead(s, [], text)) == Ok(DEFAULT_DECIMAL)
  {
    DefaultDecimal(text);
    hide Upper, Render, DecimalOf, ScalarOf;
  }

  /** DECIMAL and NUMERIC with one number have scale 0, with two both count, and more are refused. */
  lemma DecimalMeaning(head: string, p: int, s: int, more: seq<string>, text: string)
    requires Upper(head) in {"DECIMAL", "NUMERIC"} && more != []
    requires |PrintInt(p)| < |text| && |PrintInt(s)| < |text| && forall m | m in more :: |m| < |text|
    ensures ReadHead(head, [PrintInt(p)], text) == Ok(Decimal(p, 0))
    ensures ReadHead(head, [PrintInt(p), PrintInt(s)], text) == Ok(Decimal(p, s))
    ensures ReadHead(head, [PrintInt(p), PrintInt(s)] + more, text) == Err(text, DecimalArity)
  {
    PrintedFlat(p);
    PrintedFlat(s);
    IntOfPrinted(p);
    IntOfPrinted(s);
    hide PrintInt, IntOf, Upper, Flat, ScalarOf;
    var all := [PrintInt(p), PrintInt(s)] + more;
    HeadIsDecimal(head, [PrintInt(p)], text);
    HeadIsDecimal(head, [PrintInt(p), PrintInt(s)], text);
    HeadIsDecimal(head, all, text);
    assert all[0] == PrintInt(p) && all[1] == PrintInt(s);
    hide Strip, ReadHead;
  }
}
