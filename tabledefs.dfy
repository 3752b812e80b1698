/**
 * The table aggregate of backup/queries_table_defs.go: a relation together with every fact the
 * catalog queries gathered about it, joined by OID. Go's zero values are modelled explicitly:
 * indexing a map by a missing OID yields the zero value of the value type, and a slice can be
 * nil or allocated-but-empty.
 */
module TableDefs {
  import opened Catalog

  /** A Go slice: nil, or allocated with the given items (possibly none). */
  datatype Slice<T> = Nil | Made(items: seq<T>)

  function Items<T>(s: Slice<T>): seq<T>
  {
    match s
    case Nil => []
    case Made(items) => items
  }

  /** A nullable text column: `valid` is false for SQL NULL. */
  datatype NullString = NullString(value: string, valid: bool)

  /** One attribute of a table, as the column query returns it. */
  datatype ColumnDefinition = ColumnDefinition(
    oid: Oid,
    num: int,
    name: string,
    notNull: bool,
    hasDefault: bool,
    colType: string,
    encoding: string,
    statTarget: int,
    storageType: string,
    defaultVal: string,
    comment: string,
    privileges: NullString,
    kind: string,
    options: string,
    fdwOptions: string,
    collation: string,
    securityLabelProvider: string,
    securityLabel: string)

  /** Partition role of a table: "p" parent, "l" leaf, "i" intermediate. */
  datatype PartitionLevelInfo = PartitionLevelInfo(oid: Oid, level: string, rootName: string)

  datatype ForeignTableDefinition = ForeignTableDefinition(oid: Oid, options: string, server: string)

  const ZeroForeignTableDefinition := ForeignTableDefinition(0, "", "")

  /** Only the OID of an external table definition takes part in the assembly. */
  datatype ExternalTableDefinition = ExternalTableDefinition(oid: Oid)

  /** A child partition living in another schema than its root. */
  datatype AlteredPartitionRelation = AlteredPartitionRelation(oldSchema: string, newSchema: string, name: string)

  datatype TableDefinition = TableDefinition(
    distPolicy: string,
    partDef: string,
    partTemplateDef: string,
    storageOpts: string,
    tablespaceName: string,
    columnDefs: Slice<ColumnDefinition>,
    isExternal: bool,
    extTableDef: ExternalTableDefinition,
    partitionLevelInfo: PartitionLevelInfo,
    tableType: string,
    isUnlogged: bool,
    foreignDef: ForeignTableDefinition,
    inherits: Slice<string>,
    replicaIdentity: string,
    partitionAlteredSchemas: Slice<AlteredPartitionRelation>)

  /** The zero TableDefinition, as Go's composite literal with no fields gives it. */
  const ZeroTableDefinition := TableDefinition(
    "", "", "", "", "", Nil, false, ExternalTableDefinition(0), PartitionLevelInfo(0, "", ""),
    "", false, ZeroForeignTableDefinition, Nil, "", Nil)

  datatype Table = Table(relation: Relation, def: TableDefinition)

  /** SkipDataBackup: external and foreign tables hold no rows of their own to copy. */
  predicate SkipDataBackup(t: Table)
  {
    t.def.isExternal || t.def.foreignDef != ZeroForeignTableDefinition
  }

  /** A table of contents entry. */
  datatype MetadataEntry = MetadataEntry(
    schema: string,
    name: string,
    objectType: string,
    referenceObject: string,
    startByte: nat,
    endByte: nat)

  /** GetMetadataEntry: the table's section and table of contents entry. */
  function GetMetadataEntry(t: Table): (r: (string, MetadataEntry))
    ensures r.0 == "predata"
    ensures r.1.schema == t.relation.schema && r.1.name == t.relation.name
    ensures r.1.objectType == "FOREIGN TABLE" <==> t.def.foreignDef != ZeroForeignTableDefinition
    ensures r.1.objectType == "TABLE" <==> t.def.foreignDef == ZeroForeignTableDefinition
    ensures r.1.referenceObject == "" && r.1.startByte == 0 && r.1.endByte == 0
  {
    var objectType := if t.def.foreignDef != ZeroForeignTableDefinition then "FOREIGN TABLE" else "TABLE";
    ("predata", MetadataEntry(t.relation.schema, t.relation.name, objectType, "", 0, 0))
  }

  /** A table listed as a foreign table is one whose data backup is skipped. */
  lemma ForeignTablesSkipData(t: Table)
    requires GetMetadataEntry(t).1.objectType == "FOREIGN TABLE"
    ensures SkipDataBackup(t)
  {
  }

  /** The schemas that some child partition of some table was moved to. */
  ghost function AlteredSchemas(tables: seq<Table>): set<string>
  {
    set t, a | t in tables && a in Items(t.def.partitionAlteredSchemas) :: a.newSchema
  }

  /** createAlteredPartitionSchemaSet: the set of new schemas, as a map whose values are all true. */
  method CreateAlteredPartitionSchemaSet(tables: seq<Table>) returns (schemas: map<string, bool>)
    ensures schemas.Keys == AlteredSchemas(tables)
    ensures forall s :: s in schemas ==> schemas[s]
  {
    schemas := map[];
    var i := 0;
    while i < |tables|
      invariant 0 <= i <= |tables|
      invariant schemas.Keys == AlteredSchemas(tables[..i])
      invariant forall s :: s in schemas ==> schemas[s]
    {
      var altered := Items(tables[i].def.partitionAlteredSchemas);
      var j := 0;
      while j < |altered|
        invariant 0 <= j <= |altered|
        invariant schemas.Keys == AlteredSchemas(tables[..i]) + set a | a in altered[..j] :: a.newSchema
        invariant forall s :: s in schemas ==> schemas[s]
      {
        assert altered[..j + 1] == altered[..j] + [altered[j]];
        schemas := schemas[altered[j].newSchema := true];
        j := j + 1;
      }
      assert altered[..j] == altered;
      assert tables[..i + 1] == tables[..i] + [tables[i]];
      AlteredSchemasAppend(tables[..i], tables[i]);
      i := i + 1;
    }
    assert tables[..i] == tables;
  }

  lemma AlteredSchemasAppend(tables: seq<Table>, t: Table)
    ensures AlteredSchemas(tables + [t])
            == AlteredSchemas(tables) + set a | a in Items(t.def.partitionAlteredSchemas) :: a.newSchema
  {
    var extra := set a | a in Items(t.def.partitionAlteredSchemas) :: a.newSchema;
    forall s | s in AlteredSchemas(tables + [t])
      ensures s in AlteredSchemas(tables) + extra
    {
      var u, a :| u in tables + [t] && a in Items(u.def.partitionAlteredSchemas) && a.newSchema == s;
      if u != t {
        assert u in tables;
      }
    }
    forall s | s in AlteredSchemas(tables)
      ensures s in AlteredSchemas(tables + [t])
    {
      var u, a :| u in tables && a in Items(u.def.partitionAlteredSchemas) && a.newSchema == s;
      assert u in tables + [t];
    }
    forall s | s in extra
      ensures s in AlteredSchemas(tables + [t])
    {
      var a :| a in Items(t.def.partitionAlteredSchemas) && a.newSchema == s;
      assert t in tables + [t];
    }
  }

  /** The per-OID fact maps ConstructDefinitionsForTables joins, one per catalog query. */
  datatype TableFacts = TableFacts(
    columnDefs: map<Oid, seq<ColumnDefinition>>,
    distributionPolicies: map<Oid, string>,
    partitionDefs: map<Oid, string>,
    partTemplateDefs: map<Oid, string>,
    tablespaceNames: map<Oid, string>,
    storageOptions: map<Oid, string>,
    extTableDefs: map<Oid, ExternalTableDefinition>,
    partTableMap: map<Oid, PartitionLevelInfo>,
    tableTypeMap: map<Oid, string>,
    unloggedTableMap: map<Oid, bool>,
    foreignTableDefs: map<Oid, ForeignTableDefinition>,
    inheritanceMap: map<Oid, seq<string>>,
    replicaIdentityMap: map<Oid, string>,
    partitionAlteredSchemaMap: map<Oid, seq<AlteredPartitionRelation>>)

  /** Go's `m[k]`: the value at `k`, or the zero value `zero` when `k` is missing. */
  function At<V>(m: map<Oid, V>, k: Oid, zero: V): (v: V)
    ensures k in m ==> v == m[k]
    ensures k !in m ==> v == zero
  {
    if k in m then m[k] else zero
  }

  /** Go's `m[k]` for a map of slices: a missing key gives a nil slice. */
  function SliceAt<V>(m: map<Oid, seq<V>>, k: Oid): (s: Slice<V>)
    ensures s == Nil <==> k !in m
    ensures Items(s) == if k in m then m[k] else []
  {
    if k in m then Made(m[k]) else Nil
  }

  /** The definition assembled for the relation with OID `oid`; a nil inheritance list becomes an empty one. */
  function DefinitionFor(f: TableFacts, oid: Oid): (d: TableDefinition)
    ensures d.inherits != Nil
    ensures d.isExternal <==> d.extTableDef.oid != 0
  {
    var ext := At(f.extTableDefs, oid, ExternalTableDefinition(0));
    var inherits := SliceAt(f.inheritanceMap, oid);
    TableDefinition(
      At(f.distributionPolicies, oid, ""),
      At(f.partitionDefs, oid, ""),
      At(f.partTemplateDefs, oid, ""),
      At(f.storageOptions, oid, ""),
      At(f.tablespaceNames, oid, ""),
      SliceAt(f.columnDefs, oid),
      ext.oid != 0,
      ext,
      At(f.partTableMap, oid, PartitionLevelInfo(0, "", "")),
      At(f.tableTypeMap, oid, ""),
      At(f.unloggedTableMap, oid, false),
      At(f.foreignTableDefs, oid, ZeroForeignTableDefinition),
      if inherits == Nil then Made([]) else inherits,
      At(f.replicaIdentityMap, oid, ""),
      SliceAt(f.partitionAlteredSchemaMap, oid))
  }

  /** Nothing known about an OID: the zero definition, except for the empty (non-nil) inheritance list. */
  lemma DefinitionOfUnknownTable(f: TableFacts, oid: Oid)
    requires oid !in f.columnDefs && oid !in f.distributionPolicies && oid !in f.partitionDefs
    requires oid !in f.partTemplateDefs && oid !in f.tablespaceNames && oid !in f.storageOptions
    requires oid !in f.extTableDefs && oid !in f.partTableMap && oid !in f.tableTypeMap
    requires oid !in f.unloggedTableMap && oid !in f.foreignTableDefs && oid !in f.inheritanceMap
    requires oid !in f.replicaIdentityMap && oid !in f.partitionAlteredSchemaMap
    ensures DefinitionFor(f, oid) == ZeroTableDefinition.(inherits := Made([]))
  {
  }

  /** An assembled table skips its data exactly when an external definition with a non-zero OID, or a non-zero foreign definition, was found for it. */
  lemma AssembledSkipDataBackup(f: TableFacts, r: Relation)
    ensures SkipDataBackup(Table(r, DefinitionFor(f, r.oid)))
            <==> (r.oid in f.extTableDefs && f.extTableDefs[r.oid].oid != 0)
                 || (r.oid in f.foreignTableDefs && f.foreignTableDefs[r.oid] != ZeroForeignTableDefinition)
  {
  }

  /** The inheritance list of an assembled table holds the parents found for it, in order, and is never nil. */
  lemma AssembledInherits(f: TableFacts, r: Relation)
    ensures DefinitionFor(f, r.oid).inherits
            == Made(if r.oid in f.inheritanceMap then f.inheritanceMap[r.oid] else [])
  {
  }

  /** ConstructDefinitionsForTables: one table per relation, in order, each with its assembled definition. */
  method ConstructDefinitionsForTables(f: TableFacts, tableRelations: seq<Relation>) returns (tables: seq<Table>)
    ensures |tables| == |tableRelations|
    ensures forall i :: 0 <= i < |tables| ==> tables[i].relation == tableRelations[i]
    ensures forall i :: 0 <= i < |tables| ==> tables[i].def == DefinitionFor(f, tableRelations[i].oid)
  {
    tables := [];
    for i := 0 to |tableRelations|
      invariant |tables| == i
      invariant forall k :: 0 <= k < i ==> tables[k] == Table(tableRelations[k], DefinitionFor(f, tableRelations[k].oid))
    {
      var tableRel := tableRelations[i];
      var oid := tableRel.oid;
      var ext := At(f.extTableDefs, oid, ExternalTableDefinition(0));
      var tableDef := TableDefinition(
        At(f.distributionPolicies, oid, ""),
        At(f.partitionDefs, oid, ""),
        At(f.partTemplateDefs, oid, ""),
        At(f.storageOptions, oid, ""),
        At(f.tablespaceNames, oid, ""),
        SliceAt(f.columnDefs, oid),
        ext.oid != 0,
        ext,
        At(f.partTableMap, oid, PartitionLevelInfo(0, "", "")),
        At(f.tableTypeMap, oid, ""),
        At(f.unloggedTableMap, oid, false),
        At(f.foreignTableDefs, oid, ZeroForeignTableDefinition),
        SliceAt(f.inheritanceMap, oid),
        At(f.replicaIdentityMap, oid, ""),
        SliceAt(f.partitionAlteredSchemaMap, oid));
      if tableDef.inherits == Nil {
        tableDef := tableDef.(inherits := Made([]));
      }
      assert tableDef == DefinitionFor(f, oid);
      tables := tables + [Table(tableRel, tableDef)];
    }
  }
}
