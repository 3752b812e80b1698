/** Entities shared by every part of the catalog-to-DDL core. */
module Catalog {

  /** Catalog object identifiers are unsigned 32-bit integers. */
  type Oid = x: int | 0 <= x < 0x1_0000_0000

  /** A namespace: its OID and its (unquoted) name. */
  datatype Schema = Schema(oid: Oid, name: string)

  /** Identity of a relation: the OID of its schema, its own OID and the two names. */
  datatype Relation = Relation(schemaOid: Oid, oid: Oid, schema: string, name: string)

  /** Schema-qualified name, as `schema.name`. */
  function FQN(schema: string, name: string): string
  {
    schema + "." + name
  }
}
