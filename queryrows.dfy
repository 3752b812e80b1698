/**
 * The loops of backup/queries_table_defs.go that turn query result rows into per-OID maps.
 * The rows are parameters; the SQL that produces them is not modelled. Two folds specify the
 * loops: LastWins (a later row for the same OID replaces an earlier one) and GroupByOid (the
 * rows of one OID are collected in row order).
 */
module QueryRows {
  import opened Catalog
  import opened TableDefs

  // Specification folds and their properties.

  /** Stores each row's value under its OID, in row order, so that the last row for an OID wins. */
  function LastWins<V>(rows: seq<(Oid, V)>): (m: map<Oid, V>)
    ensures forall k :: k in m <==> exists i :: 0 <= i < |rows| && rows[i].0 == k
  {
    if rows == [] then map[]
    else
      var init := rows[..|rows| - 1];
      var m := LastWins(init);
      assert forall i :: 0 <= i < |init| ==> init[i] == rows[i];
      m[rows[|rows| - 1].0 := rows[|rows| - 1].1]
  }

  /** The value stored for an OID is that of the last row carrying it. */
  lemma {:induction false} LastWinsValue<V>(rows: seq<(Oid, V)>, i: nat)
    requires i < |rows|
    requires forall j :: i < j < |rows| ==> rows[j].0 != rows[i].0
    ensures rows[i].0 in LastWins(rows) && LastWins(rows)[rows[i].0] == rows[i].1
  {
    if i < |rows| - 1 {
      var init := rows[..|rows| - 1];
      LastWinsValue(init, i);
    }
  }

  /** Appends each row's value to the list of its OID, so that each list keeps row order. */
  function GroupByOid<V>(rows: seq<(Oid, V)>): (m: map<Oid, seq<V>>)
    ensures forall k :: k in m <==> exists i :: 0 <= i < |rows| && rows[i].0 == k
  {
    if rows == [] then map[]
    else
      var init := rows[..|rows| - 1];
      var m := GroupByOid(init);
      var (k, v) := rows[|rows| - 1];
      assert forall i :: 0 <= i < |init| ==> init[i] == rows[i];
      m[k := (if k in m then m[k] else []) + [v]]
  }

  /** The values of the rows carrying OID `k`, in row order: an independent definition of one group. */
  function ValuesOf<V>(rows: seq<(Oid, V)>, k: Oid): seq<V>
  {
    if rows == [] then []
    else ValuesOf(rows[..|rows| - 1], k) + (if rows[|rows| - 1].0 == k then [rows[|rows| - 1].1] else [])
  }

  /** Each group of GroupByOid is exactly the row-ordered values of its OID, and no group is empty. */
  lemma {:induction false} GroupByOidValues<V>(rows: seq<(Oid, V)>, k: Oid)
    ensures k in GroupByOid(rows) ==> GroupByOid(rows)[k] == ValuesOf(rows, k) && ValuesOf(rows, k) != []
    ensures k !in GroupByOid(rows) ==> ValuesOf(rows, k) == []
  {
    if rows != [] {
      GroupByOidValues(rows[..|rows| - 1], k);
    }
  }

  lemma LastWinsAppend<V>(rows: seq<(Oid, V)>, k: Oid, v: V)
    ensures LastWins(rows + [(k, v)]) == LastWins(rows)[k := v]
  {
    assert (rows + [(k, v)])[..|rows|] == rows;
  }

  lemma GroupByOidAppend<V>(rows: seq<(Oid, V)>, k: Oid, v: V)
    ensures var m := GroupByOid(rows); GroupByOid(rows + [(k, v)]) == m[k := (if k in m then m[k] else []) + [v]]
  {
    assert (rows + [(k, v)])[..|rows|] == rows;
  }

  // selectAsOidToStringMap, GetPartitionTableMap, GetForeignTableDefinitions, GetUnloggedTables.

  /** A row of a query selecting an OID and one text value. */
  datatype OidValue = OidValue(oid: Oid, value: string)

  function OidValuePairs(results: seq<OidValue>): (r: seq<(Oid, string)>)
    ensures |r| == |results| && forall i :: 0 <= i < |results| ==> r[i] == (results[i].oid, results[i].value)
  {
    seq(|results|, i requires 0 <= i < |results| => (results[i].oid, results[i].value))
  }

  /** selectAsOidToStringMap: each OID mapped to the value of its last row. */
  method SelectAsOidToStringMap(results: seq<OidValue>) returns (resultMap: map<Oid, string>)
    ensures resultMap == LastWins(OidValuePairs(results))
  {
    resultMap := map[];
    for i := 0 to |results|
      invariant resultMap == LastWins(OidValuePairs(results[..i]))
    {
      assert OidValuePairs(results[..i + 1]) == OidValuePairs(results[..i]) + [(results[i].oid, results[i].value)];
      LastWinsAppend(OidValuePairs(results[..i]), results[i].oid, results[i].value);
      resultMap := resultMap[results[i].oid := results[i].value];
    }
    assert results[..|results|] == results;
  }

  function PartitionLevelPairs(results: seq<PartitionLevelInfo>): (r: seq<(Oid, PartitionLevelInfo)>)
    ensures |r| == |results| && forall i :: 0 <= i < |results| ==> r[i] == (results[i].oid, results[i])
  {
    seq(|results|, i requires 0 <= i < |results| => (results[i].oid, results[i]))
  }

  /** GetPartitionTableMap: each partitioned or partition table's OID mapped to its last row. */
  method GetPartitionTableMap(results: seq<PartitionLevelInfo>) returns (resultMap: map<Oid, PartitionLevelInfo>)
    ensures resultMap == LastWins(PartitionLevelPairs(results))
  {
    resultMap := map[];
    for i := 0 to |results|
      invariant resultMap == LastWins(PartitionLevelPairs(results[..i]))
    {
      assert PartitionLevelPairs(results[..i + 1]) == PartitionLevelPairs(results[..i]) + [(results[i].oid, results[i])];
      LastWinsAppend(PartitionLevelPairs(results[..i]), results[i].oid, results[i]);
      resultMap := resultMap[results[i].oid := results[i]];
    }
    assert results[..|results|] == results;
  }

  /** The map stores under each OID a row carrying that OID. */
  lemma PartitionTableMapKeys(results: seq<PartitionLevelInfo>, k: Oid)
    requires k in LastWins(PartitionLevelPairs(results))
    ensures LastWins(PartitionLevelPairs(results))[k].oid == k
    ensures LastWins(PartitionLevelPairs(results))[k] in results
  {
    var pairs := PartitionLevelPairs(results);
    var i :| 0 <= i < |pairs| && pairs[i].0 == k;
    while exists j :: i < j < |pairs| && pairs[j].0 == k
      invariant 0 <= i < |pairs| && pairs[i].0 == k
      decreases |pairs| - i
    {
      var next :| i < next < |pairs| && pairs[next].0 == k;
      i := next;
    }
    LastWinsValue(pairs, i);
  }

  function ForeignPairs(results: seq<ForeignTableDefinition>): (r: seq<(Oid, ForeignTableDefinition)>)
    ensures |r| == |results| && forall i :: 0 <= i < |results| ==> r[i] == (results[i].oid, results[i])
  {
    seq(|results|, i requires 0 <= i < |results| => (results[i].oid, results[i]))
  }

  /** GetForeignTableDefinitions: each foreign table's OID mapped to its last row; nothing before version 6. */
  method GetForeignTableDefinitions(before6: bool, results: seq<ForeignTableDefinition>)
    returns (resultMap: map<Oid, ForeignTableDefinition>)
    ensures resultMap == if before6 then map[] else LastWins(ForeignPairs(results))
  {
    resultMap := map[];
    if before6 {
      return;
    }
    for i := 0 to |results|
      invariant resultMap == LastWins(ForeignPairs(results[..i]))
    {
      assert ForeignPairs(results[..i + 1]) == ForeignPairs(results[..i]) + [(results[i].oid, results[i])];
      LastWinsAppend(ForeignPairs(results[..i]), results[i].oid, results[i]);
      resultMap := resultMap[results[i].oid := results[i]];
    }
    assert results[..|results|] == results;
  }

  /** GetUnloggedTables: the OIDs of the unlogged tables, each mapped to true; nothing before version 6. */
  method GetUnloggedTables(before6: bool, results: seq<Oid>) returns (resultMap: map<Oid, bool>)
    ensures before6 ==> resultMap == map[]
    ensures !before6 ==> resultMap.Keys == set k | k in results
    ensures forall k :: k in resultMap ==> resultMap[k]
  {
    resultMap := map[];
    if before6 {
      return;
    }
    for i := 0 to |results|
      invariant resultMap.Keys == set k | k in results[..i]
      invariant forall k :: k in resultMap ==> resultMap[k]
    {
      assert results[..i + 1] == results[..i] + [results[i]];
      resultMap := resultMap[results[i] := true];
    }
    assert results[..|results|] == results;
  }

  // GetColumnDefinitions: storage codes and grouping.

  /** The storage strategy named by a pg_attribute.attstorage code; any other code gives "". */
  function StorageTypeName(code: string): (name: string)
    ensures name != "" <==> code in {"e", "m", "p", "x"}
  {
    match code
    case "e" => "EXTERNAL"
    case "m" => "MAIN"
    case "p" => "PLAIN"
    case "x" => "EXTENDED"
    case _ => ""
  }

  /** The code of a storage strategy name: the reverse table. */
  function StorageCode(name: string): string
  {
    match name
    case "EXTERNAL" => "e"
    case "MAIN" => "m"
    case "PLAIN" => "p"
    case "EXTENDED" => "x"
    case _ => ""
  }

  /** Translation loses nothing on the four codes: the code comes back from its name, and distinct codes get distinct names. */
  lemma StorageTypeNameInvertible(code: string)
    requires code in {"e", "m", "p", "x"}
    ensures StorageCode(StorageTypeName(code)) == code
  {
  }

  /** A column row with its storage code replaced by the strategy's name. */
  function WithStorageName(c: ColumnDefinition): ColumnDefinition
  {
    c.(storageType := StorageTypeName(c.storageType))
  }

  function ColumnPairs(results: seq<ColumnDefinition>): (r: seq<(Oid, ColumnDefinition)>)
    ensures |r| == |results|
    ensures forall i :: 0 <= i < |results| ==> r[i] == (results[i].oid, WithStorageName(results[i]))
  {
    seq(|results|, i requires 0 <= i < |results| => (results[i].oid, WithStorageName(results[i])))
  }

  /** GetColumnDefinitions: the columns of each table in row order, storage codes translated. */
  method GetColumnDefinitions(results: seq<ColumnDefinition>) returns (resultMap: map<Oid, seq<ColumnDefinition>>)
    ensures resultMap == GroupByOid(ColumnPairs(results))
  {
    resultMap := map[];
    for i := 0 to |results|
      invariant resultMap == GroupByOid(ColumnPairs(results[..i]))
    {
      var result := results[i];
      result := result.(storageType := StorageTypeName(result.storageType));
      assert ColumnPairs(results[..i + 1]) == ColumnPairs(results[..i]) + [(result.oid, result)];
      GroupByOidAppend(ColumnPairs(results[..i]), result.oid, result);
      resultMap := resultMap[result.oid := (if result.oid in resultMap then resultMap[result.oid] else []) + [result]];
    }
    assert results[..|results|] == results;
  }

  /** Every column listed for a table belongs to it, and its storage type is a strategy name or "". */
  lemma ColumnDefinitionsBelong(results: seq<ColumnDefinition>, k: Oid)
    requires k in GroupByOid(ColumnPairs(results))
    ensures forall c :: c in GroupByOid(ColumnPairs(results))[k] ==>
      c.oid == k && c.storageType in {"EXTERNAL", "MAIN", "PLAIN", "EXTENDED", ""}
  {
    GroupByOidValues(ColumnPairs(results), k);
    ValuesOfColumns(results, k);
  }

  lemma {:induction false} ValuesOfColumns(results: seq<ColumnDefinition>, k: Oid)
    ensures forall c :: c in ValuesOf(ColumnPairs(results), k) ==>
      c.oid == k && c.storageType in {"EXTERNAL", "MAIN", "PLAIN", "EXTENDED", ""}
  {
    if results != [] {
      var init := results[..|results| - 1];
      assert ColumnPairs(results)[..|results| - 1] == ColumnPairs(init);
      ValuesOfColumns(init, k);
    }
  }

  // GetPartitionAlteredSchema and GetTableInheritance: grouping only.

  /** A row of the altered-schema query: the root table's OID and one moved child partition. */
  datatype AlteredPartitionRow = AlteredPartitionRow(oid: Oid, relation: AlteredPartitionRelation)

  function AlteredPartitionPairs(results: seq<AlteredPartitionRow>): (r: seq<(Oid, AlteredPartitionRelation)>)
    ensures |r| == |results| && forall i :: 0 <= i < |results| ==> r[i] == (results[i].oid, results[i].relation)
  {
    seq(|results|, i requires 0 <= i < |results| => (results[i].oid, results[i].relation))
  }

  /** GetPartitionAlteredSchema: each root table's moved child partitions, in row order. */
  method GetPartitionAlteredSchema(results: seq<AlteredPartitionRow>)
    returns (partitionAlteredSchemaMap: map<Oid, seq<AlteredPartitionRelation>>)
    ensures partitionAlteredSchemaMap == GroupByOid(AlteredPartitionPairs(results))
  {
    partitionAlteredSchemaMap := map[];
    for i := 0 to |results|
      invariant partitionAlteredSchemaMap == GroupByOid(AlteredPartitionPairs(results[..i]))
    {
      var result := results[i];
      assert AlteredPartitionPairs(results[..i + 1]) == AlteredPartitionPairs(results[..i]) + [(result.oid, result.relation)];
      GroupByOidAppend(AlteredPartitionPairs(results[..i]), result.oid, result.relation);
      var before := if result.oid in partitionAlteredSchemaMap then partitionAlteredSchemaMap[result.oid] else [];
      partitionAlteredSchemaMap := partitionAlteredSchemaMap[result.oid := before + [result.relation]];
    }
    assert results[..|results|] == results;
  }

  /** A row of the inheritance query: a child table's OID and the name of one parent. */
  datatype Dependency = Dependency(oid: Oid, referencedObject: string)

  function DependencyPairs(results: seq<Dependency>): (r: seq<(Oid, string)>)
    ensures |r| == |results| && forall i :: 0 <= i < |results| ==> r[i] == (results[i].oid, results[i].referencedObject)
  {
    seq(|results|, i requires 0 <= i < |results| => (results[i].oid, results[i].referencedObject))
  }

  /** GetTableInheritance: each child table's parents, in row order. */
  method GetTableInheritance(results: seq<Dependency>) returns (resultMap: map<Oid, seq<string>>)
    ensures resultMap == GroupByOid(DependencyPairs(results))
  {
    resultMap := map[];
    for i := 0 to |results|
      invariant resultMap == GroupByOid(DependencyPairs(results[..i]))
    {
      var result := results[i];
      assert DependencyPairs(results[..i + 1]) == DependencyPairs(results[..i]) + [(result.oid, result.referencedObject)];
      GroupByOidAppend(DependencyPairs(results[..i]), result.oid, result.referencedObject);
      var before := if result.oid in resultMap then resultMap[result.oid] else [];
      resultMap := resultMap[result.oid := before + [result.referencedObject]];
    }
    assert results[..|results|] == results;
  }

  // GetPartitionDetails and GetTableStorage: NULL filtering.

  /** A row of the partition query: the definition is never NULL, the template may be. */
  datatype PartitionRow = PartitionRow(oid: Oid, definition: string, template: NullString)

  function DefinitionPairs(results: seq<PartitionRow>): (r: seq<(Oid, string)>)
    ensures |r| == |results| && forall i :: 0 <= i < |results| ==> r[i] == (results[i].oid, results[i].definition)
  {
    seq(|results|, i requires 0 <= i < |results| => (results[i].oid, results[i].definition))
  }

  /** The (OID, template) pairs of the rows whose template is not NULL, in row order. */
  function TemplatePairs(results: seq<PartitionRow>): (r: seq<(Oid, string)>)
    ensures forall p :: p in r <==> exists i :: 0 <= i < |results| && results[i].template.valid
                                      && p == (results[i].oid, results[i].template.value)
  {
    if results == [] then []
    else
      var init := results[..|results| - 1];
      var last := results[|results| - 1];
      assert forall i :: 0 <= i < |init| ==> init[i] == results[i];
      TemplatePairs(init) + (if last.template.valid then [(last.oid, last.template.value)] else [])
  }

  /** GetPartitionDetails: each OID's definition, and its template only where the template is not NULL. */
  method GetPartitionDetails(results: seq<PartitionRow>)
    returns (partitionDef: map<Oid, string>, partitionTemp: map<Oid, string>)
    ensures partitionDef == LastWins(DefinitionPairs(results))
    ensures partitionTemp == LastWins(TemplatePairs(results))
  {
    partitionDef, partitionTemp := map[], map[];
    for i := 0 to |results|
      invariant partitionDef == LastWins(DefinitionPairs(results[..i]))
      invariant partitionTemp == LastWins(TemplatePairs(results[..i]))
    {
      var result := results[i];
      assert results[..i + 1][..i] == results[..i];
      assert DefinitionPairs(results[..i + 1]) == DefinitionPairs(results[..i]) + [(result.oid, result.definition)];
      LastWinsAppend(DefinitionPairs(results[..i]), result.oid, result.definition);
      partitionDef := partitionDef[result.oid := result.definition];
      if result.template.valid {
        assert TemplatePairs(results[..i + 1]) == TemplatePairs(results[..i]) + [(result.oid, result.template.value)];
        LastWinsAppend(TemplatePairs(results[..i]), result.oid, result.template.value);
        partitionTemp := partitionTemp[result.oid := result.template.value];
      } else {
        assert TemplatePairs(results[..i + 1]) == TemplatePairs(results[..i]) + [];
        assert TemplatePairs(results[..i]) + [] == TemplatePairs(results[..i]);
      }
    }
    assert results[..|results|] == results;
  }

  /** A row of the storage query: tablespace and reloptions may each be NULL. */
  datatype StorageRow = StorageRow(oid: Oid, tablespace: NullString, relOptions: NullString)

  /** The tablespace column of a row, or its reloptions column. */
  function Column(row: StorageRow, tablespace: bool): NullString
  {
    if tablespace then row.tablespace else row.relOptions
  }

  /** The (OID, text) pairs of the rows whose chosen column is not NULL, in row order. */
  function ValidPairs(results: seq<StorageRow>, tablespace: bool): (r: seq<(Oid, string)>)
    ensures forall p :: p in r <==>
      exists i :: 0 <= i < |results| && Column(results[i], tablespace).valid && p == (results[i].oid, Column(results[i], tablespace).value)
  {
    if results == [] then []
    else
      var init := results[..|results| - 1];
      var last := results[|results| - 1];
      var column := Column(last, tablespace);
      assert forall i :: 0 <= i < |init| ==> init[i] == results[i];
      ValidPairs(init, tablespace) + (if column.valid then [(last.oid, column.value)] else [])
  }

  /** GetTableStorage: each OID's tablespace and reloptions, each stored only where it is not NULL. */
  method GetTableStorage(results: seq<StorageRow>)
    returns (tableSpaces: map<Oid, string>, relOptions: map<Oid, string>)
    ensures tableSpaces == LastWins(ValidPairs(results, true))
    ensures relOptions == LastWins(ValidPairs(results, false))
  {
    tableSpaces, relOptions := map[], map[];
    for i := 0 to |results|
      invariant tableSpaces == LastWins(ValidPairs(results[..i], true))
      invariant relOptions == LastWins(ValidPairs(results[..i], false))
    {
      var result := results[i];
      assert results[..i + 1][..i] == results[..i];
      if result.tablespace.valid {
        assert ValidPairs(results[..i + 1], true) == ValidPairs(results[..i], true) + [(result.oid, result.tablespace.value)];
        LastWinsAppend(ValidPairs(results[..i], true), result.oid, result.tablespace.value);
        tableSpaces := tableSpaces[result.oid := result.tablespace.value];
      } else {
        assert ValidPairs(results[..i + 1], true) == ValidPairs(results[..i], true) + [];
        assert ValidPairs(results[..i], true) + [] == ValidPairs(results[..i], true);
      }
      if result.relOptions.valid {
        assert ValidPairs(results[..i + 1], false) == ValidPairs(results[..i], false) + [(result.oid, result.relOptions.value)];
        LastWinsAppend(ValidPairs(results[..i], false), result.oid, result.relOptions.value);
        relOptions := relOptions[result.oid := result.relOptions.value];
      } else {
        assert ValidPairs(results[..i + 1], false) == ValidPairs(results[..i], false) + [];
        assert ValidPairs(results[..i], false) + [] == ValidPairs(results[..i], false);
      }
    }
    assert results[..|results|] == results;
  }

  /** A stored template or tablespace always comes from a non-NULL value of some row for that OID. */
  lemma StoredValuesAreValid(results: seq<StorageRow>, k: Oid, tablespace: bool)
    requires k in LastWins(ValidPairs(results, tablespace))
    ensures exists i :: 0 <= i < |results| && results[i].oid == k && Column(results[i], tablespace).valid
  {
    var pairs := ValidPairs(results, tablespace);
    var j :| 0 <= j < |pairs| && pairs[j].0 == k;
    assert pairs[j] in pairs;
  }
}
