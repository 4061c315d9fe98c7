/** The Unity Catalog registries: dotted names, parents registered before children, deletion by prefix. */
module UnityCatalog {
  import opened Text
  import opened DottedNames
  import Grants
  import ColumnTypes

  // ---------------------------------------------------------------- names

  /** What `validate_identifier` accepts. */
  predicate IsIdentifier(name: string) {
    && name != ""
    && (('A' <= name[0] <= 'Z') || ('a' <= name[0] <= 'z') || name[0] == '_')
    && forall c | c in name :: ('A' <= c <= 'Z') || ('a' <= c <= 'z') || ('0' <= c <= '9') || c == '_'
  }

  function SchemaName(catalog: string, schema: string): string { catalog + "." + schema }

  function FullName(catalog: string, schema: string, name: string): string { SchemaName(catalog, schema) + "." + name }

  // ---------------------------------------------------------------- state

  datatype Column = Column(name: string, spec: ColumnTypes.Spec)

  datatype Table = Table(tableType: string, format: Option<string>, location: Option<string>, columns: seq<Column>)

  datatype State = State(
    catalogs: set<string>, schemas: set<string>, tables: map<string, Table>,
    volumes: set<string>, functions: set<string>, externalTables: map<string, string>, grants: Grants.Store)

  const EMPTY := State({}, {}, map[], {}, {}, map[], map[])

  /**
   * What the handler finds outside the registries: whether the backing DuckDB and the disk hold the object
   * or something below it, and whether talking to them fails.
   */
  datatype World = World(fails: bool, holds: bool)

  datatype Event =
    | CreateCatalog(name: string, world: World)
    | DeleteCatalog(name: string, force: bool, world: World)
    | CreateSchema(catalog: string, name: string)
    | DeleteSchema(fullName: string, force: bool, world: World)
    | CreateTable(catalog: string, schema: string, name: string, tableType: string, format: Option<string>,
                  location: Option<string>, columns: seq<(string, string)>, world: World)
    | DeleteTable(fullName: string, world: World)
    | CreateVolume(catalog: string, schema: string, name: string, world: World)
    | DeleteVolume(fullName: string, world: World)
    | CreateFunction(catalog: string, schema: string, name: string)
    | DeleteFunction(fullName: string)
    | UpdateGrants(securableType: string, fullName: string, changes: seq<Grants.Change>)
    | Reset

  datatype Response =
    | Done | BadName | MissingName | AlreadyExists | NotFound | NoParent | NotEmpty | BackendFailed
    | BadColumn | NoLocation | NoColumns | BadGrant

  // ---------------------------------------------------------------- what each event does

  function Below(names: set<string>, prefix: string): set<string> { set n | n in names && StartsWith(n, prefix) }

  predicate IsExternalDelta(tableType: string, format: Option<string>) {
    tableType == "EXTERNAL" && format.Some? && Upper(format.value) == "DELTA"
  }

  /** Every declared column, its type normalised; none when a type or a name is refused. */
  function ReadColumns(columns: seq<(string, string)>): Option<seq<Column>> {
    if columns == [] then Some([])
    else match ColumnTypes.Normalize(columns[0].1)
      case Err(_, _) => None
      case Ok(spec) =>
        if !IsIdentifier(columns[0].0) then None
        else match ReadColumns(columns[1..])
          case None => None
          case Some(rest) => Some([Column(columns[0].0, spec)] + rest)
  }

  predicate SchemaHasChildren(s: State, fullName: string) {
    var p := fullName + ".";
    Below(s.tables.Keys, p) + Below(s.externalTables.Keys, p) + Below(s.volumes, p) + Below(s.functions, p) != {}
  }

  predicate CatalogHasChildren(s: State, name: string) {
    var p := name + ".";
    || Below(s.schemas, p) - {SchemaName(name, "default")} != {}
    || Below(s.tables.Keys, p) + Below(s.externalTables.Keys, p) + Below(s.volumes, p) + Below(s.functions, p) != {}
  }

  /** Tables, volumes and functions whose names start with the prefix leave the registries. */
  function DropObjects(s: State, prefix: string): State {
    s.(tables := s.tables - Below(s.tables.Keys, prefix),
       externalTables := s.externalTables - Below(s.externalTables.Keys, prefix),
       volumes := s.volumes - Below(s.volumes, prefix), functions := s.functions - Below(s.functions, prefix))
  }

  function DropCatalog(s: State, name: string): State {
    var dropped := DropObjects(s, name + ".");
    dropped.(catalogs := s.catalogs - {name}, schemas := s.schemas - Below(s.schemas, name + "."),
             grants := Grants.Kept(s.grants, name, "CATALOG"))
  }

  function DropSchema(s: State, fullName: string): State {
    var dropped := DropObjects(s, fullName + ".");
    dropped.(schemas := s.schemas - {fullName}, grants := Grants.Kept(s.grants, fullName, "SCHEMA"))
  }

  function AddSchema(s: State, catalog: string, name: string): (State, Response) {
    if catalog !in s.catalogs then (s, NoParent)
    else if !IsIdentifier(name) then (s, BadName)
    else if SchemaName(catalog, name) in s.schemas then (s, AlreadyExists)
    else (s.(schemas := s.schemas + {SchemaName(catalog, name)}), Done)
  }

  function AddTable(s: State, catalog: string, schema: string, name: string, tableType: string,
                    format: Option<string>, location: Option<string>, columns: seq<(string, string)>,
                    world: World): (State, Response) {
    var full := FullName(catalog, schema, name);
    if !IsIdentifier(name) then (s, BadName)
    else if SchemaName(catalog, schema) !in s.schemas then (s, NoParent)
    else if full in s.tables || world.holds then (s, AlreadyExists)
    else match ReadColumns(columns)
      case None => (s, BadColumn)
      case Some(cols) =>
        var table := Table(tableType, format, location, cols);
        if IsExternalDelta(tableType, format) then
          if location.None? || location.value == "" then (s, NoLocation)
          else if world.fails then (s, BackendFailed)
          else (s.(tables := s.tables[full := table], externalTables := s.externalTables[full := location.value]), Done)
        else if cols == [] then (s, NoColumns)
        else if world.fails then (s, BackendFailed)
        else (s.(tables := s.tables[full := table]), Done)
  }

  predicate ThreeParts(fullName: string) { |SplitDots(fullName)| == 3 }

  function Handle(s: State, e: Event): (State, Response) {
    match e
    case CreateCatalog(name, world) =>
      if !IsIdentifier(name) then (s, BadName)
      else if name in s.catalogs then (s, AlreadyExists)
      else if world.fails then (s, BackendFailed)
      else AddSchema(s.(catalogs := s.catalogs + {name}), name, "default")
    case DeleteCatalog(name, force, world) =>
      if name !in s.catalogs then (s, NotFound)
      else if world.fails then (s, BackendFailed)
      else if !force && (CatalogHasChildren(s, name) || world.holds) then (s, NotEmpty)
      else (DropCatalog(s, name), Done)
    case CreateSchema(catalog, name) => AddSchema(s, catalog, name)
    case DeleteSchema(full, force, world) =>
      if full !in s.schemas then (s, NotFound)
      else if world.fails then (s, BackendFailed)
      else if !force && (SchemaHasChildren(s, full) || world.holds) then (s, NotEmpty)
      else (DropSchema(s, full), Done)
    case CreateTable(catalog, schema, name, tableType, format, location, columns, world) =>
      AddTable(s, catalog, schema, name, tableType, format, location, columns, world)
    case DeleteTable(full, world) =>
      if !ThreeParts(full) then (s, BadName)
      else if full !in s.tables && full !in s.externalTables && !world.holds then (s, NotFound)
      else (s.(tables := s.tables - {full}, externalTables := s.externalTables - {full}), Done)
    case CreateVolume(catalog, schema, name, world) =>
      if SchemaName(catalog, schema) !in s.schemas then (s, NoParent)
      else if !IsIdentifier(name) then (s, BadName)
      else if FullName(catalog, schema, name) in s.volumes || world.holds then (s, AlreadyExists)
      else (s.(volumes := s.volumes + {FullName(catalog, schema, name)}), Done)
    case DeleteVolume(full, world) =>
      if !ThreeParts(full) then (s, BadName)
      else if full !in s.volumes && !world.holds then (s, NotFound)
      else (s.(volumes := s.volumes - {full}), Done)
    case CreateFunction(catalog, schema, name) =>
      if name == "" || catalog == "" || schema == "" then (s, MissingName)
      else if !IsIdentifier(name) then (s, BadName)
      else if SchemaName(catalog, schema) !in s.schemas then (s, NoParent)
      else if FullName(catalog, schema, name) in s.functions then (s, AlreadyExists)
      else (s.(functions := s.functions + {FullName(catalog, schema, name)}), Done)
    case DeleteFunction(full) =>
      if full !in s.functions then (s, NotFound) else (s.(functions := s.functions - {full}), Done)
    case UpdateGrants(securableType, fullName, changes) =>
      var r := Grants.UpdatedStore(s.grants, securableType, fullName, changes);
      (s.(grants := r.0), if r.1 == Grants.Updated then Done else BadGrant)
    case Reset => (EMPTY.(grants := s.grants), Done)
  }

  function Run(s: State, events: seq<Event>): State
    decreases |events|
  {
    if events == [] then s else Run(Handle(s, events[0]).0, events[1..])
  }

  // ---------------------------------------------------------------- what is registered

  const DIGITS := "0123456789"
  const CAPITALS := "ABCDEFGHIJKLMNOPQRSTUVWXYZ"
  const SMALLS := "abcdefghijklmnopqrstuvwxyz"

  lemma InDigits(c: char)
    ensures c in DIGITS <==> 48 <= c as int <= 57
  {
    if 48 <= c as int <= 57 {
      assert DIGITS[c as int - 48] == c;
    }
  }

  lemma InCapitals(c: char)
    ensures c in CAPITALS <==> 65 <= c as int <= 90
  {
    if 65 <= c as int <= 90 {
      assert CAPITALS[c as int - 65] == c;
    }
  }

  lemma InSmalls(c: char)
    ensures c in SMALLS <==> 97 <= c as int <= 122
  {
    if 97 <= c as int <= 122 {
      assert SMALLS[c as int - 97] == c;
    }
  }

  /** An identifier is made of letters, digits and underscores, and no digit comes first. */
  lemma IdentifierIff(name: string)
    ensures IsIdentifier(name) <==>
      name != "" && name[0] !in DIGITS && forall c | c in name :: c in CAPITALS || c in SMALLS || c in DIGITS || c == '_'
  {
    forall c
      ensures c in DIGITS <==> 48 <= c as int <= 57
      ensures (c in CAPITALS <==> 65 <= c as int <= 90) && (c in SMALLS <==> 97 <= c as int <= 122)
    {
      InDigits(c);
      InCapitals(c);
      InSmalls(c);
    }
    hide DIGITS, CAPITALS, SMALLS;
    if name != "" {
      assert name[0] in name;
    }
  }

  /** Columns are accepted exactly when each name is an identifier and each type normalises; then each keeps its place. */
  lemma {:induction false} ColumnsRead(columns: seq<(string, string)>)
    ensures ReadColumns(columns).Some? <==> forall k | 0 <= k < |columns| ::
      IsIdentifier(columns[k].0) && ColumnTypes.Normalize(columns[k].1).Ok?
    ensures ReadColumns(columns).Some? ==>
      && |ReadColumns(columns).value| == |columns|
      && forall k | 0 <= k < |columns| ::
           ReadColumns(columns).value[k] == Column(columns[k].0, ColumnTypes.Normalize(columns[k].1).value)
  {
    hide IsIdentifier, ColumnTypes.Normalize;
    if columns != [] {
      ColumnsRead(columns[1..]);
      assert forall k | 0 < k < |columns| :: columns[k] == columns[1..][k - 1];
    }
  }

  /**
   * A table is accepted exactly under the stated conditions. It is then registered under its dotted name with
   * its type, format, location and columns; an EXTERNAL Delta one also with its location in the external
   * registry. Nothing else changes, and nothing at all when it is refused.
   */
  lemma TableRegistered(s: State, catalog: string, schema: string, name: string, tableType: string,
                        format: Option<string>, location: Option<string>, columns: seq<(string, string)>, world: World)
    ensures
      var (s', r) := Handle(s, CreateTable(catalog, schema, name, tableType, format, location, columns, world));
      var full := catalog + "." + schema + "." + name;
      var external := tableType == "EXTERNAL" && format.Some? && Upper(format.value) == "DELTA";
      && (r == Done <==>
            && IsIdentifier(name) && catalog + "." + schema in s.schemas && full !in s.tables
            && !world.holds && !world.fails
            && (forall k | 0 <= k < |columns| ::
                  IsIdentifier(columns[k].0) && ColumnTypes.Normalize(columns[k].1).Ok?)
            && (if external then location.Some? && location.value != "" else columns != []))
      && (r != Done ==> s' == s)
      && (r == Done ==>
            && full in s'.tables
            && s' == s.(tables := s.tables[full := s'.tables[full]],
                        externalTables := if external then s.externalTables[full := location.value] else s.externalTables)
            && var t := s'.tables[full];
               && t.tableType == tableType && t.format == format && t.location == location
               && |t.columns| == |columns|
               && forall k | 0 <= k < |columns| :: t.columns[k].name == columns[k].0 &&
                    ColumnTypes.Normalize(columns[k].1) == ColumnTypes.Ok(t.columns[k].spec))
  {
    ColumnsRead(columns);
    assert catalog + "." + schema + "." + name == FullName(catalog, schema, name);
    hide IsIdentifier, ReadColumns, ColumnTypes.Normalize, Upper;
  }

  /** A schema is accepted exactly when its catalog is registered, its name is an identifier and not taken. */
  lemma SchemaRegistered(s: State, catalog: string, name: string)
    ensures
      var (s', r) := Handle(s, CreateSchema(catalog, name));
      && (r == Done <==> catalog in s.catalogs && IsIdentifier(name) && catalog + "." + name !in s.schemas)
      && s' == if r == Done then s.(schemas := s.schemas + {catalog + "." + name}) else s
  {
    assert SchemaName(catalog, name) == catalog + "." + name;
    hide IsIdentifier;
  }

  /** A catalog is accepted exactly when its name is a free identifier and its database opens; it comes with a schema. */
  lemma CatalogRegistered(s: State, name: string, world: World)
    requires Registered(s)
    ensures
      var (s', r) := Handle(s, CreateCatalog(name, world));
      && (r == Done <==> IsIdentifier(name) && name !in s.catalogs && !world.fails)
      && s' == if r == Done then s.(catalogs := s.catalogs + {name}, schemas := s.schemas + {name + ".default"}) else s
  {
    if IsIdentifier(name) && name !in s.catalogs {
      DefaultSchemaIsFree(s, name);
    }
    assert SchemaName(name, "default") == name + ".default";
    hide IsIdentifier, Registered;
  }

  /** Volumes and functions are accepted exactly in a registered schema under a free name that is an identifier. */
  lemma ObjectsRegistered(s: State, catalog: string, schema: string, name: string, world: World)
    ensures
      var full := catalog + "." + schema + "." + name;
      var placed := IsIdentifier(name) && catalog + "." + schema in s.schemas;
      var (v, rv) := Handle(s, CreateVolume(catalog, schema, name, world));
      var (f, rf) := Handle(s, CreateFunction(catalog, schema, name));
      && (rv == Done <==> placed && full !in s.volumes && !world.holds)
      && v == (if rv == Done then s.(volumes := s.volumes + {full}) else s)
      && (rf == Done <==> placed && full !in s.functions && catalog != "" && schema != "")
      && f == (if rf == Done then s.(functions := s.functions + {full}) else s)
  {
    assert FullName(catalog, schema, name) == catalog + "." + schema + "." + name;
  }

  // ---------------------------------------------------------------- the invariant

  /** A schema's name: a registered catalog, a dot, an identifier. */
  ghost predicate SchemaOk(catalogs: set<string>, full: string) {
    exists c, n :: c in catalogs && IsIdentifier(n) && full == SchemaName(c, n)
  }

  /** An object's name: a registered schema, a dot, an identifier. */
  ghost predicate ObjectOk(schemas: set<string>, full: string) {
    exists sch, n :: sch in schemas && IsIdentifier(n) && full == sch + "." + n
  }

  ghost predicate AllObjectsOk(schemas: set<string>, names: set<string>) {
    forall n | n in names :: ObjectOk(schemas, n)
  }

  /** The external tables are the EXTERNAL Delta part of the tables, with their locations. */
  predicate ExternalPart(tables: map<string, Table>, external: map<string, string>) {
    && (forall n | n in external :: n in tables && tables[n].location == Some(external[n]))
    && (forall n | n in tables :: n in external <==> IsExternalDelta(tables[n].tableType, tables[n].format))
  }

  ghost predicate Registered(s: State) {
    && (forall c | c in s.catalogs :: IsIdentifier(c))
    && (forall n | n in s.schemas :: SchemaOk(s.catalogs, n))
    && AllObjectsOk(s.schemas, s.tables.Keys) && AllObjectsOk(s.schemas, s.volumes)
    && AllObjectsOk(s.schemas, s.functions)
    && ExternalPart(s.tables, s.externalTables)
    && Grants.KeysWellFormed(s.grants)
  }

  // ---------------------------------------------------------------- prefixes

  lemma IdentifierHasNoDot(name: string)
    requires IsIdentifier(name)
    ensures '.' !in name && SplitDots(name) == [name]
  {
    SplitPlain(name);
  }

  /** The catalog a schema name belongs to is the part before the dot. */
  lemma SchemaPrefix(catalogs: set<string>, full: string, catalog: string)
    requires SchemaOk(catalogs, full) && IsIdentifier(catalog) && forall c | c in catalogs :: IsIdentifier(c)
    ensures StartsWith(full, catalog + ".") <==> SplitDots(full)[0] == catalog
    ensures |SplitDots(full)| == 2 && SplitDots(full)[0] in catalogs
    ensures full == SchemaName(SplitDots(full)[0], SplitDots(full)[1]) && IsIdentifier(SplitDots(full)[1])
  {
    hide SplitDots;
    var c, n :| c in catalogs && IsIdentifier(n) && full == SchemaName(c, n);
    IdentifierHasNoDot(c);
    IdentifierHasNoDot(n);
    IdentifierHasNoDot(catalog);
    SplitConcat(c, n);
    BelowPlain(c, n, catalog);
  }

  /** The schema and the catalog an object's name belongs to. */
  lemma ObjectParts(s: State, full: string)
    requires Registered(s) && ObjectOk(s.schemas, full)
    ensures var p := SplitDots(full);
      && |p| == 3 && SchemaName(p[0], p[1]) in s.schemas && p[0] in s.catalogs && full == FullName(p[0], p[1], p[2])
      && IsIdentifier(p[0]) && IsIdentifier(p[1]) && IsIdentifier(p[2])
  {
    hide SplitDots, IsIdentifier;
    var sch, n :| sch in s.schemas && IsIdentifier(n) && full == sch + "." + n;
    assert SchemaOk(s.catalogs, sch);
    var c, m :| c in s.catalogs && IsIdentifier(m) && sch == SchemaName(c, m);
    IdentifierHasNoDot(c);
    IdentifierHasNoDot(m);
    IdentifierHasNoDot(n);
    SplitConcat(c, m);
    SplitConcat(sch, n);
  }

  /** An object's name starts with a catalog and a dot exactly when it is in that catalog; likewise a schema. */
  lemma ObjectPrefix(s: State, full: string, catalog: string, schema: string)
    requires Registered(s) && ObjectOk(s.schemas, full) && IsIdentifier(catalog) && IsIdentifier(schema)
    ensures var p := SplitDots(full);
      && |p| == 3
      && (StartsWith(full, catalog + ".") <==> p[0] == catalog)
      && (StartsWith(full, SchemaName(catalog, schema) + ".") <==> p[0] == catalog && p[1] == schema)
  {
    hide SplitDots, IsIdentifier, StartsWith;
    ObjectParts(s, full);
    IdentifierHasNoDot(catalog);
    IdentifierHasNoDot(schema);
    SplitConcat(catalog, schema);
    DottedPrefix(full, catalog);
    DottedPrefix(full, SchemaName(catalog, schema));
    var p := SplitDots(full);
    assert p[..1] == [p[0]] && p[..2] == [p[0], p[1]];
  }

  // ---------------------------------------------------------------- every event keeps the registries

  lemma AddSchemaKeeps(s: State, catalog: string, name: string)
    requires Registered(s)
    ensures Registered(AddSchema(s, catalog, name).0)
  {
    hide IsIdentifier, ExternalPart, SchemaName;
    var r := AddSchema(s, catalog, name).0;
    ObjectsGrow(s.schemas, r.schemas, s.tables.Keys);
    ObjectsGrow(s.schemas, r.schemas, s.volumes);
    ObjectsGrow(s.schemas, r.schemas, s.functions);
    hide AllObjectsOk;
  }

  lemma ObjectsGrow(a: set<string>, b: set<string>, names: set<string>)
    requires AllObjectsOk(a, names) && a <= b
    ensures AllObjectsOk(b, names)
  {
    forall n | n in names ensures ObjectOk(b, n) {
      assert ObjectOk(a, n);
    }
  }

  lemma NewObject(s: State, catalog: string, schema: string, name: string)
    requires SchemaName(catalog, schema) in s.schemas && IsIdentifier(name)
    ensures ObjectOk(s.schemas, FullName(catalog, schema, name))
  {
  }

  /** Objects outside a deleted schema still have theirs. */
  lemma ObjectsShrink(s: State, schemas: set<string>, names: set<string>)
    requires AllObjectsOk(s.schemas, names)
    requires forall n, sch, m | n in names && sch in s.schemas && n == sch + "." + m :: sch in schemas
    ensures AllObjectsOk(schemas, names)
  {
    forall n | n in names ensures ObjectOk(schemas, n) {
      assert ObjectOk(s.schemas, n);
      var sch, m :| sch in s.schemas && IsIdentifier(m) && n == sch + "." + m;
      assert sch in schemas;
    }
  }

  lemma DropSchemaKeeps(s: State, full: string)
    requires Registered(s) && full in s.schemas
    ensures Registered(DropSchema(s, full))
  {
    hide IsIdentifier, SchemaName;
    var r := DropSchema(s, full);
    KeptWellFormed(s.grants, full, "SCHEMA");
    forall n, sch, m | n in r.tables.Keys + r.volumes + r.functions && sch in s.schemas && n == sch + "." + m
      ensures sch in r.schemas
    {
      assert sch == full ==> StartsWith(n, full + ".");
    }
    ObjectsShrink(s, r.schemas, r.tables.Keys);
    ObjectsShrink(s, r.schemas, r.volumes);
    ObjectsShrink(s, r.schemas, r.functions);
    hide AllObjectsOk, SchemaOk;
  }

  lemma KeptWellFormed(g: Grants.Store, parentName: string, parentType: string)
    requires Grants.KeysWellFormed(g)
    ensures Grants.KeysWellFormed(Grants.Kept(g, parentName, parentType))
  {
  }

  lemma DropCatalogKeeps(s: State, name: string)
    requires Registered(s) && name in s.catalogs
    ensures Registered(DropCatalog(s, name))
  {
    hide IsIdentifier, SchemaName;
    var r := DropCatalog(s, name);
    KeptWellFormed(s.grants, name, "CATALOG");
    SchemasKept(s, name);
    DropCatalogObjects(s, name);
    hide AllObjectsOk, SchemaOk, StartsWith, Grants.Kept, Grants.KeysWellFormed;
  }

  lemma SchemasKept(s: State, name: string)
    requires Registered(s) && name in s.catalogs
    ensures forall n | n in DropCatalog(s, name).schemas :: SchemaOk(s.catalogs - {name}, n)
  {
    hide IsIdentifier, AllObjectsOk, ExternalPart;
    forall n | n in DropCatalog(s, name).schemas ensures SchemaOk(s.catalogs - {name}, n) {
      var c, m :| c in s.catalogs && IsIdentifier(m) && n == SchemaName(c, m);
      assert c == name ==> StartsWith(n, name + ".");
    }
  }

  lemma DropCatalogObjects(s: State, name: string)
    requires Registered(s)
    ensures var r := DropCatalog(s, name);
      AllObjectsOk(r.schemas, r.tables.Keys) && AllObjectsOk(r.schemas, r.volumes) && AllObjectsOk(r.schemas, r.functions)
  {
    hide IsIdentifier, ExternalPart, SchemaOk;
    var r := DropCatalog(s, name);
    forall n, sch, m | n in r.tables.Keys + r.volumes + r.functions && sch in s.schemas && n == sch + "." + m
      ensures sch in r.schemas
    {
      assert StartsWith(sch, name + ".") ==> StartsWith(n, name + ".");
    }
    ObjectsShrink(s, r.schemas, r.tables.Keys);
    ObjectsShrink(s, r.schemas, r.volumes);
    ObjectsShrink(s, r.schemas, r.functions);
    hide AllObjectsOk;
  }

  /** A fresh catalog never has a schema yet, so its default schema is always created with it. */
  lemma DefaultSchemaIsFree(s: State, name: string)
    requires Registered(s) && IsIdentifier(name) && name !in s.catalogs
    ensures SchemaName(name, "default") !in s.schemas
    ensures forall world: World | !world.fails :: Handle(s, CreateCatalog(name, world)).1 == Done
  {
    if SchemaName(name, "default") in s.schemas {
      SchemaPrefix(s.catalogs, SchemaName(name, "default"), name);
    }
    assert IsIdentifier("default");
    hide SplitDots, Registered;
  }

  lemma CatalogAdded(s: State, name: string)
    requires Registered(s) && IsIdentifier(name)
    ensures Registered(s.(catalogs := s.catalogs + {name}))
  {
    hide IsIdentifier, AllObjectsOk, ExternalPart;
    forall n | n in s.schemas ensures SchemaOk(s.catalogs + {name}, n) {
      assert SchemaOk(s.catalogs, n);
    }
  }

  lemma TableAdded(s: State, e: Event)
    requires Registered(s) && e.CreateTable?
    ensures Registered(Handle(s, e).0)
  {
    hide IsIdentifier, ReadColumns, SchemaName, FullName, IsExternalDelta, Registered;
    if Handle(s, e).1 == Done {
      NewObject(s, e.catalog, e.schema, e.name);
      var table := Table(e.tableType, e.format, e.location, ReadColumns(e.columns).value);
      TableStored(s, FullName(e.catalog, e.schema, e.name), table);
    }
  }

  /** A new table, and its location if it is an external Delta table. */
  lemma TableStored(s: State, full: string, table: Table)
    requires Registered(s) && ObjectOk(s.schemas, full) && full !in s.tables
    ensures var external := IsExternalDelta(table.tableType, table.format);
      && (external && table.location.Some? ==>
            Registered(s.(tables := s.tables[full := table],
                          externalTables := s.externalTables[full := table.location.value])))
      && (!external ==> Registered(s.(tables := s.tables[full := table])))
  {
    hide IsIdentifier, SchemaOk, ObjectOk, IsExternalDelta, Grants.KeysWellFormed;
    ExternalKept(s.tables, s.externalTables, full, table);
    hide ExternalPart;
  }

  lemma ExternalKept(tables: map<string, Table>, external: map<string, string>, full: string, table: Table)
    requires ExternalPart(tables, external) && full !in tables
    ensures var delta := IsExternalDelta(table.tableType, table.format);
      && (delta && table.location.Some? ==>
            ExternalPart(tables[full := table], external[full := table.location.value]))
      && (!delta ==> ExternalPart(tables[full := table], external))
  {
    hide IsExternalDelta;
  }

  /** Every event keeps parents registered and the external tables in step with the tables. */
  lemma HandleKeeps(s: State, e: Event)
    requires Registered(s)
    ensures Registered(Handle(s, e).0)
  {
    hide IsIdentifier, DropCatalog, DropSchema, AddTable, AddSchema, SchemaHasChildren, CatalogHasChildren;
    hide ThreeParts, Registered, SchemaName, FullName;
    match e
    case CreateCatalog(name, world) =>
      if IsIdentifier(name) {
        CatalogAdded(s, name);
        AddSchemaKeeps(s.(catalogs := s.catalogs + {name}), name, "default");
      }
    case DeleteCatalog(name, force, world) => if name in s.catalogs { DropCatalogKeeps(s, name); }
    case CreateSchema(catalog, name) => AddSchemaKeeps(s, catalog, name);
    case DeleteSchema(full, force, world) => if full in s.schemas { DropSchemaKeeps(s, full); }
    case CreateTable(_, _, _, _, _, _, _, _) => TableAdded(s, e);
    case DeleteTable(full, world) => TableRemoved(s, full);
    case CreateVolume(catalog, schema, name, world) => ObjectAdded(s, catalog, schema, name);
    case CreateFunction(catalog, schema, name) => ObjectAdded(s, catalog, schema, name);
    case DeleteVolume(full, world) => ObjectRemoved(s, full);
    case DeleteFunction(full) => ObjectRemoved(s, full);
    case UpdateGrants(securableType, fullName, changes) =>
      GrantsUpdated(s, securableType, fullName, changes);
      hide Grants.UpdatedStore;
    case Reset => ResetKeeps(s);
  }

  lemma ResetKeeps(s: State)
    requires Registered(s)
    ensures Registered(EMPTY.(grants := s.grants))
  {
  }

  lemma GrantsUpdated(s: State, securableType: string, fullName: string, changes: seq<Grants.Change>)
    requires Registered(s)
    ensures Registered(s.(grants := Grants.UpdatedStore(s.grants, securableType, fullName, changes).0))
  {
    hide IsIdentifier, SchemaOk, AllObjectsOk, ExternalPart, Grants.UpdatedStore;
    Grants.UpdateKeepsKeys(s.grants, securableType, fullName, changes);
  }

  lemma ObjectAdded(s: State, catalog: string, schema: string, name: string)
    requires Registered(s)
    ensures SchemaName(catalog, schema) in s.schemas && IsIdentifier(name) ==>
      && Registered(s.(volumes := s.volumes + {FullName(catalog, schema, name)}))
      && Registered(s.(functions := s.functions + {FullName(catalog, schema, name)}))
  {
    hide IsIdentifier, SchemaOk, ExternalPart, FullName;
    if SchemaName(catalog, schema) in s.schemas && IsIdentifier(name) {
      NewObject(s, catalog, schema, name);
    }
    hide ObjectOk, SchemaName;
  }

  lemma ObjectRemoved(s: State, full: string)
    requires Registered(s)
    ensures Registered(s.(volumes := s.volumes - {full})) && Registered(s.(functions := s.functions - {full}))
  {
    hide IsIdentifier, SchemaOk, ExternalPart, ObjectOk;
  }

  lemma TableRemoved(s: State, full: string)
    requires Registered(s)
    ensures Registered(s.(tables := s.tables - {full}, externalTables := s.externalTables - {full}))
  {
    hide IsIdentifier, SchemaOk, ObjectOk, IsExternalDelta;
  }

  lemma {:induction false} RunKeeps(s: State, events: seq<Event>)
    requires Registered(s)
    ensures Registered(Run(s, events))
    decreases |events|
  {
    hide Registered, Handle;
    if events != [] {
      HandleKeeps(s, events[0]);
      RunKeeps(Handle(s, events[0]).0, events[1..]);
    }
  }

  // ---------------------------------------------------------------- what a deletion removes

  function CatalogPart(name: string): string { SplitDots(name)[0] }

  predicate InSchema(name: string, catalog: string, schema: string) {
    var p := SplitDots(name);
    |p| == 3 && p[0] == catalog && p[1] == schema
  }

  /**
   * Deleting a catalog removes the catalog, and of every registry exactly what lies in that catalog;
   * deleting without force happens only when nothing but the default schema does.
   */
  lemma CatalogDeletion(s: State, name: string, force: bool, world: World)
    requires Registered(s) && Handle(s, DeleteCatalog(name, force, world)).1 == Done
    ensures var r := Handle(s, DeleteCatalog(name, force, world)).0;
      && r.catalogs == s.catalogs - {name}
      && r.schemas == (set n | n in s.schemas && CatalogPart(n) != name)
      && r.tables == (map n | n in s.tables && CatalogPart(n) != name :: s.tables[n])
      && r.externalTables == (map n | n in s.externalTables && CatalogPart(n) != name :: s.externalTables[n])
      && r.volumes == (set n | n in s.volumes && CatalogPart(n) != name)
      && r.functions == (set n | n in s.functions && CatalogPart(n) != name)
    ensures var r := Handle(s, DeleteCatalog(name, force, world)).0;
      !force ==>
        && s.schemas - r.schemas <= {SchemaName(name, "default")}
        && r.tables == s.tables && r.externalTables == s.externalTables
        && r.volumes == s.volumes && r.functions == s.functions
  {
    hide SplitDots, StartsWith, IsIdentifier;
    forall n | n in s.schemas ensures StartsWith(n, name + ".") <==> CatalogPart(n) == name {
      SchemaPrefix(s.catalogs, n, name);
    }
    ObjectsInCatalog(s, s.tables.Keys, name);
    ObjectsInCatalog(s, s.volumes, name);
    ObjectsInCatalog(s, s.functions, name);
    hide Grants.Kept, SchemaOk, AllObjectsOk, CatalogPart, SchemaName;
    CatalogDropped(s, name);
    if !force {
      CatalogEmpty(s, name);
    }
    hide DropCatalog, CatalogHasChildren;
  }

  lemma ObjectsInCatalog(s: State, names: set<string>, name: string)
    requires Registered(s) && AllObjectsOk(s.schemas, names) && IsIdentifier(name)
    ensures forall n | n in names :: StartsWith(n, name + ".") <==> CatalogPart(n) == name
  {
    hide SplitDots, StartsWith, IsIdentifier;
    forall n | n in names ensures StartsWith(n, name + ".") <==> CatalogPart(n) == name {
      ObjectPrefix(s, n, name, name);
    }
  }

  lemma CatalogDropped(s: State, name: string)
    requires forall n | n in s.schemas || n in s.tables || n in s.volumes || n in s.functions ::
      StartsWith(n, name + ".") <==> CatalogPart(n) == name
    requires s.externalTables.Keys <= s.tables.Keys
    ensures var r := DropCatalog(s, name);
      && r.catalogs == s.catalogs - {name}
      && r.schemas == (set n | n in s.schemas && CatalogPart(n) != name)
      && r.tables == (map n | n in s.tables && CatalogPart(n) != name :: s.tables[n])
      && r.externalTables == (map n | n in s.externalTables && CatalogPart(n) != name :: s.externalTables[n])
      && r.volumes == (set n | n in s.volumes && CatalogPart(n) != name)
      && r.functions == (set n | n in s.functions && CatalogPart(n) != name)
  {
    hide StartsWith, CatalogPart, Grants.Kept;
  }

  lemma CatalogEmpty(s: State, name: string)
    requires !CatalogHasChildren(s, name)
    ensures var r := DropCatalog(s, name);
      && s.schemas - r.schemas <= {SchemaName(name, "default")}
      && r.tables == s.tables && r.externalTables == s.externalTables
      && r.volumes == s.volumes && r.functions == s.functions
  {
    hide StartsWith, SchemaName, Grants.Kept;
  }

  /**
   * Deleting a schema removes the schema and exactly what lies in it; without force, nothing lies in it.
   */
  lemma SchemaDeletion(s: State, full: string, force: bool, world: World)
    requires Registered(s) && Handle(s, DeleteSchema(full, force, world)).1 == Done
    ensures var r := Handle(s, DeleteSchema(full, force, world)).0;
      var c, n := SplitDots(full)[0], CatalogRest(full);
      && r.catalogs == s.catalogs && r.schemas == s.schemas - {full}
      && r.tables == (map x | x in s.tables && !InSchema(x, c, n) :: s.tables[x])
      && r.externalTables == (map x | x in s.externalTables && !InSchema(x, c, n) :: s.externalTables[x])
      && r.volumes == (set x | x in s.volumes && !InSchema(x, c, n))
      && r.functions == (set x | x in s.functions && !InSchema(x, c, n))
    ensures var r := Handle(s, DeleteSchema(full, force, world)).0;
      !force ==> r.tables == s.tables && r.externalTables == s.externalTables
                 && r.volumes == s.volumes && r.functions == s.functions
  {
    hide SplitDots, StartsWith, IsIdentifier;
    var c, n := SplitDots(full)[0], CatalogRest(full);
    SchemaSplit(s, full);
    ObjectsInSchema(s, s.tables.Keys, c, n);
    ObjectsInSchema(s, s.volumes, c, n);
    ObjectsInSchema(s, s.functions, c, n);
    hide Grants.Kept, SchemaOk, AllObjectsOk, InSchema, SchemaName, CatalogRest;
    SchemaDropped(s, full, c, n);
    if !force {
      SchemaEmpty(s, full);
    }
    hide DropSchema, SchemaHasChildren;
  }

  /** The part of a schema's name after its catalog. */
  function CatalogRest(full: string): string {
    var p := SplitDots(full);
    if |p| == 2 then p[1] else ""
  }

  lemma SchemaSplit(s: State, full: string)
    requires Registered(s) && full in s.schemas
    ensures var c, n := SplitDots(full)[0], CatalogRest(full);
      full == SchemaName(c, n) && c in s.catalogs && IsIdentifier(c) && IsIdentifier(n)
  {
    hide SplitDots, StartsWith, IsIdentifier;
    var c :| c in s.catalogs && exists n :: IsIdentifier(n) && full == SchemaName(c, n);
    SchemaPrefix(s.catalogs, full, c);
  }

  lemma ObjectsInSchema(s: State, names: set<string>, c: string, n: string)
    requires Registered(s) && AllObjectsOk(s.schemas, names) && IsIdentifier(c) && IsIdentifier(n)
    ensures forall x | x in names :: StartsWith(x, SchemaName(c, n) + ".") <==> InSchema(x, c, n)
  {
    hide SplitDots, StartsWith, IsIdentifier;
    forall x | x in names ensures StartsWith(x, SchemaName(c, n) + ".") <==> InSchema(x, c, n) {
      ObjectPrefix(s, x, c, n);
    }
  }

  lemma SchemaDropped(s: State, full: string, c: string, n: string)
    requires forall x | x in s.tables || x in s.volumes || x in s.functions ::
      StartsWith(x, full + ".") <==> InSchema(x, c, n)
    requires s.externalTables.Keys <= s.tables.Keys
    ensures var r := DropSchema(s, full);
      && r.catalogs == s.catalogs && r.schemas == s.schemas - {full}
      && r.tables == (map x | x in s.tables && !InSchema(x, c, n) :: s.tables[x])
      && r.externalTables == (map x | x in s.externalTables && !InSchema(x, c, n) :: s.externalTables[x])
      && r.volumes == (set x | x in s.volumes && !InSchema(x, c, n))
      && r.functions == (set x | x in s.functions && !InSchema(x, c, n))
  {
    hide StartsWith, InSchema, Grants.Kept;
  }

  lemma SchemaEmpty(s: State, full: string)
    requires !SchemaHasChildren(s, full)
    ensures var r := DropSchema(s, full);
      r.tables == s.tables && r.externalTables == s.externalTables
      && r.volumes == s.volumes && r.functions == s.functions
  {
    hide StartsWith, Grants.Kept;
  }

  /** No grant outlives a deleted catalog, on the catalog itself or on what could inherit from it. */
  lemma CatalogGrantsGone(s: State, name: string, force: bool, world: World, key: Grants.Key)
    requires Registered(s) && Handle(s, DeleteCatalog(name, force, world)).1 == Done
    ensures key in Handle(s, DeleteCatalog(name, force, world)).0.grants <==>
      && key in s.grants && key != Grants.Key("CATALOG", Some(name))
      && Grants.Key("CATALOG", Some(name)) !in Grants.Ancestors(key.kind, key.name.value)
  {
    hide SplitDots, Grants.Ancestors, Grants.DeletedWith, SchemaOk, AllObjectsOk, IsIdentifier;
    IdentifierHasNoDot(name);
    if key in s.grants {
      Grants.DeletedAreDescendants(key, name, "CATALOG");
    }
  }

  /** No grant outlives a deleted schema, on the schema itself or on what could inherit from it. */
  lemma SchemaGrantsGone(s: State, full: string, force: bool, world: World, key: Grants.Key)
    requires Registered(s) && Handle(s, DeleteSchema(full, force, world)).1 == Done
    ensures key in Handle(s, DeleteSchema(full, force, world)).0.grants <==>
      && key in s.grants && key != Grants.Key("SCHEMA", Some(full))
      && Grants.Key("SCHEMA", Some(full)) !in Grants.Ancestors(key.kind, key.name.value)
  {
    hide SplitDots, Grants.Ancestors, Grants.DeletedWith, SchemaOk, AllObjectsOk, IsIdentifier;
    TwoParts(s, full);
    if key in s.grants {
      Grants.DeletedAreDescendants(key, full, "SCHEMA");
    }
  }

  lemma TwoParts(s: State, full: string)
    requires Registered(s) && full in s.schemas
    ensures |SplitDots(full)| == 2
  {
    hide SplitDots, StartsWith, IsIdentifier;
    var c :| c in s.catalogs && exists n :: IsIdentifier(n) && full == SchemaName(c, n);
    SchemaPrefix(s.catalogs, full, c);
  }

  // ---------------------------------------------------------------- the service

  class Service {
    var catalogs: set<string>
    var schemas: set<string>
    var tables: map<string, Table>
    var volumes: set<string>
    var functions: set<string>
    var externalTables: map<string, string>
    const grants: Grants.Service

    function View(): State
      reads this, grants
    {
      State(catalogs, schemas, tables, volumes, functions, externalTables, grants.grants)
    }

    constructor ()
      ensures View() == EMPTY && Registered(View()) && fresh(grants)
    {
      catalogs, schemas, tables, volumes, functions, externalTables := {}, {}, map[], {}, {}, map[];
      grants := new Grants.Service();
    }

    method CreateSchemaHandler(catalog: string, name: string) returns (r: Response)
      modifies this
      ensures (View(), r) == Handle(old(View()), CreateSchema(catalog, name))
    {
      hide IsIdentifier;
      if catalog !in catalogs {
        return NoParent;
      }
      if !IsIdentifier(name) {
        return BadName;
      }
      var full := SchemaName(catalog, name);
      if full in schemas {
        return AlreadyExists;
      }
      schemas := schemas + {full};
      r := Done;
    }

    method CreateCatalogHandler(name: string, world: World) returns (r: Response)
      modifies this
      ensures (View(), r) == Handle(old(View()), CreateCatalog(name, world))
    {
      hide IsIdentifier, SchemaName;
      if !IsIdentifier(name) {
        return BadName;
      }
      if name in catalogs {
        return AlreadyExists;
      }
      if world.fails {
        return BackendFailed;
      }
      catalogs := catalogs + {name};
      r := CreateSchemaHandler(name, "default");
    }

    /** The registered tables, external tables, volumes and functions under a prefix leave, one by one. */
    method DeleteObjects(prefix: string)
      modifies this
      ensures View() == DropObjects(old(View()), prefix)
    {
      hide StartsWith;
      tables := DropPrefixed(tables, prefix);
      externalTables := DropPrefixed(externalTables, prefix);
      volumes := DropNames(volumes, prefix);
      functions := DropNames(functions, prefix);
    }

    method DeleteCatalogHandler(name: string, force: bool, world: World) returns (r: Response)
      modifies this, grants
      ensures (View(), r) == Handle(old(View()), DeleteCatalog(name, force, world))
    {
      hide CatalogHasChildren, Grants.Kept;
      if name !in catalogs {
        return NotFound;
      }
      if world.fails {
        return BackendFailed;
      }
      if !force && (CatalogHasChildren(View(), name) || world.holds) {
        return NotEmpty;
      }
      var kept := DropNames(schemas, name + ".");
      schemas := kept;
      DeleteObjects(name + ".");
      grants.DeleteGrantsForParent(name, "CATALOG");
      catalogs := catalogs - {name};
      r := Done;
    }

    method DeleteSchemaHandler(fullName: string, force: bool, world: World) returns (r: Response)
      modifies this, grants
      ensures (View(), r) == Handle(old(View()), DeleteSchema(fullName, force, world))
    {
      hide SchemaHasChildren, Grants.Kept;
      if fullName !in schemas {
        return NotFound;
      }
      if world.fails {
        return BackendFailed;
      }
      if !force && (SchemaHasChildren(View(), fullName) || world.holds) {
        return NotEmpty;
      }
      DeleteObjects(fullName + ".");
      grants.DeleteGrantsForParent(fullName, "SCHEMA");
      schemas := schemas - {fullName};
      r := Done;
    }

    method CreateTableHandler(catalog: string, schema: string, name: string, tableType: string, format: Option<string>,
                              location: Option<string>, columns: seq<(string, string)>, world: World)
      returns (r: Response)
      modifies this
      ensures (View(), r) ==
        Handle(old(View()), CreateTable(catalog, schema, name, tableType, format, location, columns, world))
    {
      hide IsIdentifier, SchemaName, FullName, ReadColumns, IsExternalDelta;
      if !IsIdentifier(name) {
        return BadName;
      }
      if SchemaName(catalog, schema) !in schemas {
        return NoParent;
      }
      var full := FullName(catalog, schema, name);
      if full in tables || world.holds {
        return AlreadyExists;
      }
      var cols := ReadColumnsLoop(columns);
      if cols.None? {
        return BadColumn;
      }
      if IsExternalDelta(tableType, format) {
        if location.None? || location.value == "" {
          return NoLocation;
        }
        if world.fails {
          return BackendFailed;
        }
        externalTables := externalTables[full := location.value];
      } else {
        if cols.value == [] {
          return NoColumns;
        }
        if world.fails {
          return BackendFailed;
        }
      }
      tables := tables[full := Table(tableType, format, location, cols.value)];
      r := Done;
    }

    method DeleteTableHandler(fullName: string, world: World) returns (r: Response)
      modifies this
      ensures (View(), r) == Handle(old(View()), DeleteTable(fullName, world))
      ensures Registered(old(View())) ==> Registered(View())
      ensures View() == old(View()).(tables := tables, externalTables := externalTables)
      ensures r == Done ==> tables == old(tables) - {fullName} && externalTables == old(externalTables) - {fullName}
    {
      if Registered(View()) {
        HandleKeeps(View(), DeleteTable(fullName, world));
      }
      hide Registered;
      hide ThreeParts;
      if !ThreeParts(fullName) {
        return BadName;
      }
      if fullName !in tables && fullName !in externalTables && !world.holds {
        return NotFound;
      }
      tables := tables - {fullName};
      externalTables := externalTables - {fullName};
      r := Done;
    }

    method CreateVolumeHandler(catalog: string, schema: string, name: string, world: World) returns (r: Response)
      modifies this
      ensures (View(), r) == Handle(old(View()), CreateVolume(catalog, schema, name, world))
      ensures Registered(old(View())) ==> Registered(View())
      ensures View() == old(View()).(volumes := volumes)
      ensures volumes == old(volumes) + (if r == Done then {FullName(catalog, schema, name)} else {})
    {
      if Registered(View()) {
        HandleKeeps(View(), CreateVolume(catalog, schema, name, world));
      }
      hide Registered;
      hide IsIdentifier, SchemaName, FullName;
      if SchemaName(catalog, schema) !in schemas {
        return NoParent;
      }
      if !IsIdentifier(name) {
        return BadName;
      }
      var full := FullName(catalog, schema, name);
      if full in volumes || world.holds {
        return AlreadyExists;
      }
      volumes := volumes + {full};
      r := Done;
    }

    method DeleteVolumeHandler(fullName: string, world: World) returns (r: Response)
      modifies this
      ensures (View(), r) == Handle(old(View()), DeleteVolume(fullName, world))
      ensures Registered(old(View())) ==> Registered(View())
      ensures View() == old(View()).(volumes := volumes)
      ensures volumes == old(volumes) - (if r == Done then {fullName} else {})
    {
      if Registered(View()) {
        HandleKeeps(View(), DeleteVolume(fullName, world));
      }
      hide Registered;
      hide ThreeParts;
      if !ThreeParts(fullName) {
        return BadName;
      }
      if fullName !in volumes && !world.holds {
        return NotFound;
      }
      volumes := volumes - {fullName};
      r := Done;
    }

    method DeleteFunctionHandler(fullName: string) returns (r: Response)
      modifies this
      ensures (View(), r) == Handle(old(View()), DeleteFunction(fullName))
      ensures Registered(old(View())) ==> Registered(View())
      ensures View() == old(View()).(functions := functions)
      ensures functions == old(functions) - {fullName} && (r == Done <==> fullName in old(functions))
    {
      if Registered(View()) {
        HandleKeeps(View(), DeleteFunction(fullName));
      }
      hide Registered;
      if fullName !in functions {
        return NotFound;
      }
      functions := functions - {fullName};
      r := Done;
    }

    method CreateFunctionHandler(catalog: string, schema: string, name: string) returns (r: Response)
      modifies this
      ensures (View(), r) == Handle(old(View()), CreateFunction(catalog, schema, name))
      ensures Registered(old(View())) ==> Registered(View())
      ensures View() == old(View()).(functions := functions)
      ensures functions == old(functions) + (if r == Done then {FullName(catalog, schema, name)} else {})
    {
      if Registered(View()) {
        HandleKeeps(View(), CreateFunction(catalog, schema, name));
      }
      hide Registered;
      hide IsIdentifier, SchemaName, FullName;
      if name == "" || catalog == "" || schema == "" {
        return MissingName;
      }
      if !IsIdentifier(name) {
        return BadName;
      }
      if SchemaName(catalog, schema) !in schemas {
        return NoParent;
      }
      var full := FullName(catalog, schema, name);
      if full in functions {
        return AlreadyExists;
      }
      functions := functions + {full};
      r := Done;
    }
  }

  method DropNames(names: set<string>, prefix: string) returns (r: set<string>)
    ensures r == names - Below(names, prefix)
  {
    hide StartsWith;
    r := names;
    var pending := names;
    while pending != {}
      invariant pending <= names
      invariant r == set n | n in names && (n in pending || !StartsWith(n, prefix))
      decreases pending
    {
      var n :| n in pending;
      pending := pending - {n};
      if StartsWith(n, prefix) {
        r := r - {n};
      }
    }
  }

  method DropPrefixed<T>(registry: map<string, T>, prefix: string) returns (r: map<string, T>)
    ensures r == registry - Below(registry.Keys, prefix)
  {
    hide StartsWith;
    r := registry;
    var pending := registry.Keys;
    while pending != {}
      invariant pending <= registry.Keys
      invariant r == map n | n in registry && (n in pending || !StartsWith(n, prefix)) :: registry[n]
      decreases pending
    {
      var n :| n in pending;
      pending := pending - {n};
      if StartsWith(n, prefix) {
        r := r - {n};
      }
    }
  }

  /** The declared columns, each type normalised, stopping at the first refused type or name. */
  method ReadColumnsLoop(columns: seq<(string, string)>) returns (r: Option<seq<Column>>)
    ensures r == ReadColumns(columns)
  {
    hide IsIdentifier, ColumnTypes.Normalize;
    var done: seq<Column> := [];
    assert columns[0..] == columns && forall rest: seq<Column> :: [] + rest == rest;
    for i := 0 to |columns|
      invariant ReadColumns(columns) ==
        match ReadColumns(columns[i..]) case None => None case Some(rest) => Some(done + rest)
    {
      assert columns[i..][0] == columns[i] && columns[i..][1..] == columns[i + 1..];
      var spec := ColumnTypes.ParseType(columns[i].1);
      if spec.Err? || !IsIdentifier(columns[i].0) {
        return None;
      }
      var next := Column(columns[i].0, spec.value);
      assert forall rest: seq<Column> :: done + ([next] + rest) == (done + [next]) + rest;
      done := done + [next];
    }
    assert columns[|columns|..] == [] && done + [] == done;
    r := Some(done);
  }
}
