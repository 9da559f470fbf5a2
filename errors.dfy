/** The planner's error kinds. */
module Errors {
  import opened Names

  datatype PlanError =
    // Option bag access.
    | MissingOption(key: string)
    | OptionParseError(key: string, raw: string)
    // `internal!(...)`, `PlanError::String(...)` and errors of the query engine.
    | Internal(msg: string)
    | Message(msg: string)
    | DataFusion(msg: string)
    // A Rust `unreachable!()`: the planner panics instead of returning.
    | Panic(msg: string)
    // Statement shapes.
    | UnsupportedFeature(feature: string)
    | UnsupportedSQLStatement(stmt: string)
    | InvalidIdentifier(ident: string)
    | InvalidUrl(url: string)
    | InvalidDeleteStatement(msg: string)
    | InvalidAlterStatement(msg: string)
    | InvalidInsertStatement(msg: string)
    | InvalidViewStatement(msg: string)
    | InvalidNumberOfAliasesForView(sql: string, aliases: seq<string>)
    | ObjectNotAllowedToWriteInto(table: TableReference)
    // Catalog objects and external systems.
    | InvalidCredentials(credentials: string, reason: string)
    | InvalidExternalTable(source: PlanError)
    | InvalidCopyToStatement(source: PlanError)
}
