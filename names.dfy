/** References to tables and schemas, before and after catalog resolution. */
module Names {

  /** A table reference as written: bare, schema-qualified or fully qualified. */
  datatype TableReference =
    | Bare(table: string)
    | Partial(schema: string, table: string)
    | Full(catalog: string, schema: string, table: string)

  /** A schema reference: bare or qualified by its catalog. */
  datatype SchemaReference =
    | BareSchema(schema: string)
    | FullSchema(catalog: string, schema: string)

  /** A fully resolved reference: database, schema and object name. */
  datatype FullObjectReference = FullObjectReference(database: string, schema: string, name: string)
}
