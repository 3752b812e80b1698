/** PrintCreateSchemaStatements: one CREATE SCHEMA statement per schema, each followed by its metadata block. */
module SchemaStatements {
  import opened Text
  import opened Catalog
  import opened Identifiers
  import opened Acl
  import opened Metadata
  import opened Sink

  /** The statement of one schema: its name as SQL writes it, then its comment, owner and privileges. */
  function SchemaText(schema: Schema, schemaMetadata: MetadataMap): string
  {
    var name := SchemaToString(schema);
    "\n\nCREATE SCHEMA " + name + ";" + MetadataText(MetadataFor(schemaMetadata, schema.oid), name, "SCHEMA", "")
  }

  /** The statements of `schemas`, in the order given. */
  function SchemasText(schemas: seq<Schema>, schemaMetadata: MetadataMap): string
  {
    if schemas == [] then ""
    else SchemasText(schemas[..|schemas| - 1], schemaMetadata) + SchemaText(schemas[|schemas| - 1], schemaMetadata)
  }

  /** Schemas are written in list order: the text of a concatenation is the concatenation of the texts. */
  lemma {:induction false} SchemasTextAppend(a: seq<Schema>, b: seq<Schema>, schemaMetadata: MetadataMap)
    ensures SchemasText(a + b, schemaMetadata) == SchemasText(a, schemaMetadata) + SchemasText(b, schemaMetadata)
    decreases |b|
  {
    if b == [] {
      assert a + b == a;
    } else {
      var init := b[..|b| - 1];
      var last := b[|b| - 1];
      assert (a + b)[..|a + b| - 1] == a + init;
      SchemasTextAppend(a, init, schemaMetadata);
      AppendAssoc(SchemasText(a, schemaMetadata), SchemasText(init, schemaMetadata), SchemaText(last, schemaMetadata));
    }
  }

  /** PrintCreateSchemaStatements: writes every schema's statement and metadata, in order. */
  method PrintCreateSchemaStatements(buf: Buffer, schemas: seq<Schema>, schemaMetadata: MetadataMap)
    modifies buf
    ensures buf.text == old(buf.text) + SchemasText(schemas, schemaMetadata)
  {
    ghost var start := buf.text;
    for i := 0 to |schemas|
      invariant buf.text == start + SchemasText(schemas[..i], schemaMetadata)
    {
      var schema := schemas[i];
      var name := SchemaToString(schema);
      ghost var before := buf.text;
      buf.Write("\n\nCREATE SCHEMA " + name + ";");
      PrintObjectMetadata(buf, MetadataFor(schemaMetadata, schema.oid), name, "SCHEMA", "");
      AppendAssoc(before, "\n\nCREATE SCHEMA " + name + ";", MetadataText(MetadataFor(schemaMetadata, schema.oid), name, "SCHEMA", ""));
      assert schemas[..i + 1][..i] == schemas[..i];
      AppendAssoc(start, SchemasText(schemas[..i], schemaMetadata), SchemaText(schema, schemaMetadata));
    }
    assert schemas[..|schemas|] == schemas;
  }

  /** A schema without metadata and with a plain name is one bare CREATE SCHEMA statement. */
  lemma BasicSchema(schema: Schema, schemaMetadata: MetadataMap)
    requires schema.oid !in schemaMetadata && IsBareIdent(schema.name)
    ensures SchemasText([schema], schemaMetadata) == "\n\nCREATE SCHEMA " + schema.name + ";"
  {
    assert [schema][..0] == [];
    var meta := MetadataFor(schemaMetadata, schema.oid);
    assert meta == ObjectMetadata([], "", "");
    MetadataTextEmpty(meta, schema.name, "SCHEMA", "");
    var stmt := "\n\nCREATE SCHEMA " + schema.name + ";";
    assert SchemaText(schema, schemaMetadata) == stmt + "";
    assert "" + (stmt + "") == stmt;
  }

  /**
   * A schema with a comment, an owner and the owner's full privileges: the statement, then the
   * comment one blank line below, then the owner, then the revokes and the grant back to the owner.
   */
  lemma SchemaWithMetadata(schema: Schema, schemaMetadata: MetadataMap, owner: string, comment: string)
    requires IsBareIdent(schema.name) && owner != "" && comment != "" && '\'' !in comment
    requires schemaMetadata == map[schema.oid := ObjectMetadata([ACL(owner, Kinds("SCHEMA"), {})], owner, comment)]
    ensures var n := schema.name;
      SchemasText([schema], schemaMetadata)
      == ("\n\nCREATE SCHEMA " + n + ";")
         + (("\n\nCOMMENT ON " + "SCHEMA" + " " + n + " IS '" + comment + "';\n")
            + ("\n\nALTER " + "SCHEMA" + " " + n + " OWNER TO " + owner + ";\n")
            + ("\n\n" + (("REVOKE ALL ON " + "SCHEMA" + " " + n + " FROM PUBLIC;")
                         + "\n" + ("REVOKE ALL ON " + "SCHEMA" + " " + n + " FROM " + owner + ";")
                         + "\n" + ("GRANT ALL ON " + "SCHEMA" + " " + n + " TO " + owner + ";")) + "\n"))
  {
    assert [schema][..0] == [];
    var meta := MetadataFor(schemaMetadata, schema.oid);
    FullMetadataText(meta, schema.name, "SCHEMA");
    assert SchemasText([schema], schemaMetadata) == "" + SchemaText(schema, schemaMetadata);
  }
}
