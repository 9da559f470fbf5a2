/**
 * Shape checks and name handling of statement planning (`plan_statement`):
 * schema references, SHOW, ALTER TABLE, DROP, CREATE VIEW aliases, INSERT
 * access mode, DELETE and UPDATE targets, and the naming of temporary tables.
 * Catalog lookups and the helpers of other crates are fields of `Session`.
 */
module Statements {
  import opened Wrappers
  import opened Errors
  import opened Names
  import Ast

  /** Helpers from crates outside this model, and the session catalog. */
  datatype Session = Session(
    // `normalize_ident`: the identifier normalizer of the SQL parser crate.
    normalize: Ast.Ident -> string,
    // `validate_ident` and `validate_object_name`.
    validateIdent: Ast.Ident -> Result<(), PlanError>,
    validateObjectName: Ast.ObjectName -> Result<(), PlanError>,
    // `object_name_to_table_ref`, the query engine's conversion of a name.
    tableRefOf: Ast.ObjectName -> Result<TableReference, PlanError>,
    // `resolve_table_ref` and `resolve_schema_ref` of the session context.
    resolveTableRef: TableReference -> Result<FullObjectReference, PlanError>,
    resolveSchemaRef: SchemaReference -> FullSchemaReference,
    // `EntryResolver::resolve_entry_from_reference`.
    resolveEntry: TableReference -> Result<ResolvedEntry, PlanError>,
    // `get_table_source` of the context provider followed by `to_dfschema` of its schema.
    tableSchema: TableReference -> Result<(), PlanError>,
    // The error `ResolvedEntry::try_into_table_entry` gives an entry that is not a table.
    notATable: ResolvedEntry -> PlanError)

  /** A schema reference after resolution: database and schema. */
  datatype FullSchemaReference = FullSchemaReference(database: string, schema: string)

  // ---- Schema references ----

  /** The table reference a schema reference is read from. */
  function SchemaRefAsTableRef(r: SchemaReference): TableReference {
    match r
    case BareSchema(schema) => Bare(schema)
    case FullSchema(catalog, schema) => Partial(catalog, schema)
  }

  /**
   * `object_name_to_schema_ref`: a one-part name is a schema; in a two-part
   * name the first part is the catalog and the second the schema; a
   * three-part name is not a schema.
   */
  function ObjectNameToSchemaRef(name: Ast.ObjectName, s: Session): (r: Result<SchemaReference, PlanError>)
    ensures s.tableRefOf(name).Failure? ==> r == Failure(s.tableRefOf(name).error)
    ensures s.tableRefOf(name).Success? ==>
      (r.Success? <==> !s.tableRefOf(name).value.Full?)
      && (r.Success? ==> SchemaRefAsTableRef(r.value) == s.tableRefOf(name).value)
  {
    var tr :- s.tableRefOf(name);
    match tr
    case Bare(table) => Success(BareSchema(table))
    case Partial(schema, table) => Success(FullSchema(schema, table))
    case Full(catalog, schema, table) =>
      Failure(Internal("invalid schema object: " + catalog + "." + schema + "." + table))
  }

  /** A schema reference is determined by the table reference it came from. */
  lemma SchemaRefAsTableRefInjective(a: SchemaReference, b: SchemaReference)
    ensures SchemaRefAsTableRef(a) == SchemaRefAsTableRef(b) ==> a == b
  {
  }

  // ---- SHOW ----

  const TRANSACTION_ISOLATION_LEVEL_STMT := ["transaction", "isolation", "level"]

  /** `is_show_transaction_isolation_level`: element-wise equality with the three words. */
  function IsShowTransactionIsolationLevel(variable: seq<string>): (r: bool)
    ensures r ==> |variable| == 3
    ensures r <==> forall i :: 0 <= i < 3 ==> i < |variable| == 3 && variable[i] == TRANSACTION_ISOLATION_LEVEL_STMT[i]
  {
    |variable| == 3 && variable[0] == "transaction" && variable[1] == "isolation" && variable[2] == "level"
  }

  function Normalized(idents: seq<Ast.Ident>, normalize: Ast.Ident -> string): (r: seq<string>)
    ensures |r| == |idents| && forall i :: 0 <= i < |idents| ==> r[i] == normalize(idents[i])
  {
    if idents == [] then [] else [normalize(idents[0])] + Normalized(idents[1..], normalize)
  }

  /**
   * The variable a SHOW statement shows: SHOW TRANSACTION ISOLATION LEVEL is
   * an alias of `transaction_isolation`; otherwise exactly one name is shown.
   */
  function PlanShowVariable(variable: seq<Ast.Ident>, normalize: Ast.Ident -> string): (r: Result<string, PlanError>)
    ensures IsShowTransactionIsolationLevel(Normalized(variable, normalize)) ==> r == Success("transaction_isolation")
    ensures !IsShowTransactionIsolationLevel(Normalized(variable, normalize)) ==>
      r == if |variable| == 1 then Success(normalize(variable[0]))
           else Failure(Internal("expecting only one variable to show"))
  {
    var names := Normalized(variable, normalize);
    if IsShowTransactionIsolationLevel(names) then Success("transaction_isolation")
    else if |names| != 1 then Failure(Internal("expecting only one variable to show"))
    else Success(names[0])
  }

  /** Only the three-word form and single names are accepted. */
  lemma ShowVariableAccepts(variable: seq<Ast.Ident>, normalize: Ast.Ident -> string)
    ensures PlanShowVariable(variable, normalize).Success? <==>
      |variable| == 1 || Normalized(variable, normalize) == TRANSACTION_ISOLATION_LEVEL_STMT
  {
    var names := Normalized(variable, normalize);
    if names == TRANSACTION_ISOLATION_LEVEL_STMT {
      assert IsShowTransactionIsolationLevel(names);
    }
    if IsShowTransactionIsolationLevel(names) {
      assert names == TRANSACTION_ISOLATION_LEVEL_STMT;
    }
  }

  // ---- ALTER TABLE ----

  /** ALTER TABLE operations: only a rename is planned. */
  datatype AlterTableOperation =
    | RenameTable(tableName: Ast.ObjectName)
    | OtherAlterOperation(display: string)

  datatype AlterTablePlan = AlterTablePlan(schema: string, name: string, newName: string)

  const NEW_NAME_NOT_IDENT := "new table name should be a valid table identifier"

  /**
   * ALTER TABLE: exactly one operation, a rename to a one-part name; the
   * table named is resolved in the catalog and the new name normalized.
   */
  function PlanAlterTable(name: Ast.ObjectName, operations: seq<AlterTableOperation>, s: Session): (r: Result<AlterTablePlan, PlanError>)
    ensures |operations| != 1 ==> r == Failure(UnsupportedFeature("ALTER TABLE with multiple operations"))
    ensures |operations| == 1 && operations[0].OtherAlterOperation? ==>
      r == Failure(UnsupportedSQLStatement(operations[0].display))
    ensures r.Success? ==>
      |operations| == 1 && operations[0].RenameTable? && |operations[0].tableName| == 1
      && r.value.newName == s.normalize(operations[0].tableName[0])
      && s.tableRefOf(name).Success? && s.resolveTableRef(s.tableRefOf(name).value).Success?
      && r.value.schema == s.resolveTableRef(s.tableRefOf(name).value).value.schema
      && r.value.name == s.resolveTableRef(s.tableRefOf(name).value).value.name
    ensures r.Success? <==>
      && |operations| == 1 && operations[0].RenameTable?
      && s.validateObjectName(name).Success? && s.tableRefOf(name).Success?
      && s.resolveTableRef(s.tableRefOf(name).value).Success?
      && |operations[0].tableName| == 1 && s.validateIdent(operations[0].tableName[0]).Success?
    ensures (|operations| == 1 && operations[0].RenameTable?
             && s.validateObjectName(name).Success? && s.tableRefOf(name).Success?
             && s.resolveTableRef(s.tableRefOf(name).value).Success?
             && |operations[0].tableName| != 1) ==>
      r == Failure(InvalidAlterStatement(NEW_NAME_NOT_IDENT))
  {
    if |operations| != 1 then Failure(UnsupportedFeature("ALTER TABLE with multiple operations"))
    else
      match operations[0]
      case OtherAlterOperation(display) => Failure(UnsupportedSQLStatement(display))
      case RenameTable(newName) =>
        var _ :- s.validateObjectName(name);
        var tr :- s.tableRefOf(name);
        var full :- s.resolveTableRef(tr);
        if |newName| != 1 then Failure(InvalidAlterStatement(NEW_NAME_NOT_IDENT))
        else
          var _ :- s.validateIdent(newName[0]);
          Success(AlterTablePlan(full.schema, full.name, s.normalize(newName[0])))
  }

  // ---- DROP ----

  /** One DROP TABLE / DROP VIEW name: validated, converted and resolved. */
  function ResolveDropName(name: Ast.ObjectName, s: Session): Result<FullObjectReference, PlanError> {
    var _ :- s.validateObjectName(name);
    var tr :- s.tableRefOf(name);
    s.resolveTableRef(tr)
  }

  /** One DROP SCHEMA name: validated, read as a schema reference and resolved. */
  function ResolveDropSchemaName(name: Ast.ObjectName, s: Session): Result<FullSchemaReference, PlanError> {
    var _ :- s.validateObjectName(name);
    var sr :- ObjectNameToSchemaRef(name, s);
    Success(s.resolveSchemaRef(sr))
  }

  /**
   * The DROP loops: resolve each name in order and push the result; the
   * first name that fails ends planning with its error.
   */
  method PlanDropReferences<R>(names: seq<Ast.ObjectName>, resolve: Ast.ObjectName -> Result<R, PlanError>)
    returns (r: Result<seq<R>, PlanError>)
    ensures r.Success? <==> forall i :: 0 <= i < |names| ==> resolve(names[i]).Success?
    ensures r.Success? ==> |r.value| == |names| && forall i :: 0 <= i < |names| ==> r.value[i] == resolve(names[i]).value
    ensures r.Failure? ==>
      exists i :: 0 <= i < |names| && resolve(names[i]) == Failure(r.error)
        && forall j :: 0 <= j < i ==> resolve(names[j]).Success?
  {
    var refs: seq<R> := [];
    for i := 0 to |names|
      invariant |refs| == i
      invariant forall j :: 0 <= j < i ==> resolve(names[j]).Success? && refs[j] == resolve(names[j]).value
    {
      var one := resolve(names[i]);
      if one.Failure? {
        return Failure(one.error);
      }
      refs := refs + [one.value];
    }
    r := Success(refs);
  }

  // ---- CREATE VIEW ----

  /** The body of a view query, as far as the planner distinguishes it. */
  datatype ViewBody = ValuesBody | QueryBody | SelectBody | OtherBody

  datatype CreateViewPlan = CreateViewPlan(viewReference: FullObjectReference, sql: string, columns: seq<string>, orReplace: bool)

  /**
   * CREATE VIEW: no view options, a SELECT or VALUES body, and, when aliases
   * are given, exactly one per output field of the body (`outputFields`,
   * which planning the query yields).
   */
  function PlanCreateView(
    name: Ast.ObjectName, hasOptions: bool, body: ViewBody, columns: seq<Ast.Ident>,
    sql: string, outputFields: nat, orReplace: bool, s: Session)
    : (r: Result<CreateViewPlan, PlanError>)
    ensures r.Success? ==> columns == [] || outputFields == |columns|
    ensures r.Success? ==> r.value.columns == Normalized(columns, s.normalize) && r.value.sql == sql
    ensures (s.validateObjectName(name).Success? && s.tableRefOf(name).Success? && !hasOptions && body != OtherBody
             && columns != [] && outputFields != |columns|) ==>
      r == Failure(InvalidNumberOfAliasesForView(sql, Normalized(columns, s.normalize)))
    ensures (s.validateObjectName(name).Success? && s.tableRefOf(name).Success? && hasOptions) ==>
      r == Failure(UnsupportedFeature("view options"))
    ensures (s.validateObjectName(name).Success? && s.tableRefOf(name).Success? && !hasOptions && body == OtherBody) ==>
      r == Failure(InvalidViewStatement("view body must either be a SELECT or VALUES statement"))
    ensures r.Success? <==>
      && s.validateObjectName(name).Success? && s.tableRefOf(name).Success? && !hasOptions && body != OtherBody
      && (columns == [] || outputFields == |columns|)
      && s.resolveTableRef(s.tableRefOf(name).value).Success?
    ensures r.Success? ==>
      r.value.viewReference == s.resolveTableRef(s.tableRefOf(name).value).value && r.value.orReplace == orReplace
  {
    var _ :- s.validateObjectName(name);
    var tr :- s.tableRefOf(name);
    if hasOptions then Failure(UnsupportedFeature("view options"))
    else if body == OtherBody then
      Failure(InvalidViewStatement("view body must either be a SELECT or VALUES statement"))
    else
      var aliases := Normalized(columns, s.normalize);
      if aliases != [] && outputFields != |aliases| then
        Failure(InvalidNumberOfAliasesForView(sql, aliases))
      else
        var view :- s.resolveTableRef(tr);
        Success(CreateViewPlan(view, sql, aliases, orReplace))
  }

  // ---- Temporary tables ----

  // The default catalog and the session-local schema, as named by the catalog crate.
  const DEFAULT_CATALOG := "default"
  const CURRENT_SESSION_SCHEMA := "current_session"

  /** A temporary table must have a bare name and lives in the session schema of the default catalog. */
  function TempTableReference(tableName: TableReference): (r: Result<FullObjectReference, PlanError>)
    ensures r.Success? <==> tableName.Bare?
    ensures r.Success? ==> r.value == FullObjectReference(DEFAULT_CATALOG, CURRENT_SESSION_SCHEMA, tableName.table)
    ensures r.Failure? ==> r.error == Internal("cannot specify schema with temporary tables")
  {
    match tableName
    case Bare(table) => Success(FullObjectReference(DEFAULT_CATALOG, CURRENT_SESSION_SCHEMA, table))
    case _ => Failure(Internal("cannot specify schema with temporary tables"))
  }

  // ---- Catalog entries and access modes ----

  /** Whether a data source may be written to. */
  datatype SourceAccessMode = ReadOnly | ReadWrite {
    predicate HasWriteAccess() {
      ReadWrite?
    }
  }

  /** A table entry: enough to tell external tables apart. */
  datatype TableEntry = TableEntry(reference: FullObjectReference, external: bool, accessMode: SourceAccessMode)

  /** What a table reference resolves to in the catalog. */
  datatype ResolvedEntry =
    | NeedsExternalResolution(databaseAccessMode: SourceAccessMode)
    | DatabaseEntry(accessMode: SourceAccessMode)
    | TableEntryOf(entry: TableEntry)
    | OtherEntry

  /** `get_access_mode` on a resolved entry: databases and tables have one, other entries none. */
  function AccessModeOf(entry: ResolvedEntry): (r: Option<SourceAccessMode>)
    ensures r.None? <==> entry.OtherEntry?
    ensures entry.NeedsExternalResolution? ==> r == Some(entry.databaseAccessMode)
    ensures entry.DatabaseEntry? ==> r == Some(entry.accessMode)
    ensures entry.TableEntryOf? ==> r == Some(entry.entry.accessMode)
  {
    match entry
    case NeedsExternalResolution(mode) => Some(mode)
    case DatabaseEntry(mode) => Some(mode)
    case TableEntryOf(t) => Some(t.accessMode)
    case OtherEntry => None
  }

  /** `try_into_table_entry`: a table entry converts to itself; any other entry is an error. */
  function TryIntoTableEntry(entry: ResolvedEntry, s: Session): (r: Result<TableEntry, PlanError>)
    ensures r.Success? <==> entry.TableEntryOf?
    ensures r.Success? ==> r.value == entry.entry
    ensures r.Failure? ==> r.error == s.notATable(entry)
  {
    match entry
    case TableEntryOf(t) => Success(t)
    case _ => Failure(s.notATable(entry))
  }

  // ---- INSERT ----

  /** Validate and normalize column names in order; the first invalid one is the error. */
  function PlanColumns(columns: seq<Ast.Ident>, s: Session): (r: Result<seq<string>, PlanError>)
    ensures r.Success? <==> forall i :: 0 <= i < |columns| ==> s.validateIdent(columns[i]).Success?
    ensures r.Success? ==> r.value == Normalized(columns, s.normalize)
    ensures r.Failure? ==>
      exists i :: 0 <= i < |columns| && s.validateIdent(columns[i]) == Failure(r.error)
        && forall j :: 0 <= j < i ==> s.validateIdent(columns[j]).Success?
  {
    if columns == [] then Success([])
    else
      var _ :- s.validateIdent(columns[0]);
      var rest :- PlanColumns(columns[1..], s);
      Success([s.normalize(columns[0])] + rest)
  }

  datatype InsertPlan = InsertPlan(table: TableReference, columns: seq<string>)

  /**
   * INSERT: a source is required; the target name and columns are checked,
   * the source is planned (`planSource`, the query engine), and only then is
   * the target's access mode looked up, defaulting to read-only when the
   * entry has none; a target without write access is rejected.
   */
  function PlanInsert(
    source: bool, tableName: Ast.ObjectName, columns: seq<Ast.Ident>, s: Session,
    planSource: (TableReference, seq<string>) -> Result<(), PlanError>)
    : (r: Result<InsertPlan, PlanError>)
    ensures !source ==> r == Failure(InvalidInsertStatement("Nothing to insert: source empty"))
    ensures r.Success? ==>
      s.tableRefOf(tableName) == Success(r.value.table)
      && s.resolveEntry(r.value.table).Success?
      && AccessModeOf(s.resolveEntry(r.value.table).value) == Some(ReadWrite)
    ensures (source && s.validateObjectName(tableName).Success? && s.tableRefOf(tableName).Success?
             && PlanColumns(columns, s).Success? && planSource(s.tableRefOf(tableName).value, PlanColumns(columns, s).value).Success?
             && s.resolveEntry(s.tableRefOf(tableName).value).Success?
             && AccessModeOf(s.resolveEntry(s.tableRefOf(tableName).value).value) != Some(ReadWrite)) ==>
      r == Failure(ObjectNotAllowedToWriteInto(s.tableRefOf(tableName).value))
    ensures r.Success? <==>
      && source && s.validateObjectName(tableName).Success? && s.tableRefOf(tableName).Success?
      && PlanColumns(columns, s).Success? && planSource(s.tableRefOf(tableName).value, PlanColumns(columns, s).value).Success?
      && s.resolveEntry(s.tableRefOf(tableName).value).Success?
      && AccessModeOf(s.resolveEntry(s.tableRefOf(tableName).value).value) == Some(ReadWrite)
    ensures r.Success? ==> r.value.columns == Normalized(columns, s.normalize)
  {
    if !source then Failure(InvalidInsertStatement("Nothing to insert: source empty"))
    else
      var _ :- s.validateObjectName(tableName);
      var table :- s.tableRefOf(tableName);
      var cols :- PlanColumns(columns, s);
      var _ :- planSource(table, cols);
      var entry :- s.resolveEntry(table);
      var mode := AccessModeOf(entry).GetOr(ReadOnly);
      if !mode.HasWriteAccess() then Failure(ObjectNotAllowedToWriteInto(table))
      else Success(InsertPlan(table, cols))
  }

  /**
   * An entry that has no access mode of its own counts as read-only: once
   * everything before the access check succeeds, the insert is refused.
   */
  lemma InsertDefaultsToReadOnly(
    tableName: Ast.ObjectName, columns: seq<Ast.Ident>, s: Session,
    planSource: (TableReference, seq<string>) -> Result<(), PlanError>)
    requires s.validateObjectName(tableName).Success? && s.tableRefOf(tableName).Success?
    requires PlanColumns(columns, s).Success?
    requires planSource(s.tableRefOf(tableName).value, PlanColumns(columns, s).value).Success?
    requires s.resolveEntry(s.tableRefOf(tableName).value) == Success(OtherEntry)
    ensures PlanInsert(true, tableName, columns, s, planSource) == Failure(ObjectNotAllowedToWriteInto(s.tableRefOf(tableName).value))
  {
    assert AccessModeOf(OtherEntry).GetOr(ReadOnly) == ReadOnly;
  }

  // ---- DELETE and UPDATE ----

  /** A relation in a FROM list: a named table, or anything else (a join, a subquery, ...). */
  datatype TableFactor = Table(name: Ast.ObjectName) | OtherFactor

  /** A FROM list entry: a relation with its joins. */
  datatype TableWithJoins = TableWithJoins(relation: TableFactor, joins: nat)

  datatype DeletePlan = DeletePlan(table: TableEntry)

  /**
   * The target of DELETE and UPDATE before its catalog entry is looked up:
   * the name is validated and converted, and the table's schema must be
   * obtainable from the context provider.
   */
  function TargetTable(name: Ast.ObjectName, s: Session): (r: Result<TableReference, PlanError>)
    ensures r.Success? <==>
      s.validateObjectName(name).Success? && s.tableRefOf(name).Success? && s.tableSchema(s.tableRefOf(name).value).Success?
    ensures r.Success? ==> r.value == s.tableRefOf(name).value
    ensures s.validateObjectName(name).Failure? ==> r == Failure(s.validateObjectName(name).error)
    ensures s.validateObjectName(name).Success? && s.tableRefOf(name).Success? && s.tableSchema(s.tableRefOf(name).value).Failure? ==>
      r == Failure(s.tableSchema(s.tableRefOf(name).value).error)
  {
    var _ :- s.validateObjectName(name);
    var table :- s.tableRefOf(name);
    var _ :- s.tableSchema(table);
    Success(table)
  }

  /**
   * The target's catalog entry: it must be a table and not an external one;
   * `op` names the statement in the error.
   */
  function WritableEntry(table: TableReference, op: string, s: Session): (r: Result<TableEntry, PlanError>)
    ensures r.Success? <==>
      s.resolveEntry(table).Success? && s.resolveEntry(table).value.TableEntryOf? && !s.resolveEntry(table).value.entry.external
    ensures r.Success? ==> r.value == s.resolveEntry(table).value.entry
    ensures s.resolveEntry(table).Failure? ==> r == Failure(s.resolveEntry(table).error)
    ensures s.resolveEntry(table).Success? && !s.resolveEntry(table).value.TableEntryOf? ==>
      r == Failure(s.notATable(s.resolveEntry(table).value))
    ensures s.resolveEntry(table).Success? && s.resolveEntry(table).value.TableEntryOf? && s.resolveEntry(table).value.entry.external ==>
      r == Failure(UnsupportedFeature(op + " with external tables"))
  {
    var resolved :- s.resolveEntry(table);
    var entry :- TryIntoTableEntry(resolved, s);
    if entry.external then Failure(UnsupportedFeature(op + " with external tables"))
    else Success(entry)
  }

  /**
   * DELETE FROM: exactly one FROM entry, whose relation is a named table
   * (its joins are not looked at), which must resolve to a table that is not
   * external. Planning the WHERE expression is not part of this model.
   */
  function PlanDelete(from: seq<TableWithJoins>, s: Session): (r: Result<DeletePlan, PlanError>)
    ensures |from| == 0 ==> r == Failure(InvalidDeleteStatement("DELETE FROM should have atleast one table name"))
    ensures |from| > 1 ==> r == Failure(UnsupportedFeature("DELETE from multiple tables"))
    ensures |from| == 1 && from[0].relation.OtherFactor? ==> r == Failure(UnsupportedFeature("DELETE from TableWithJoins"))
    ensures |from| == 1 && from[0].relation.Table? && TargetTable(from[0].relation.name, s).Failure? ==>
      r == Failure(TargetTable(from[0].relation.name, s).error)
    ensures r.Success? <==>
      |from| == 1 && from[0].relation.Table? && TargetTable(from[0].relation.name, s).Success?
      && WritableEntry(TargetTable(from[0].relation.name, s).value, "DELETE", s).Success?
    ensures r.Success? ==>
      !r.value.table.external
      && s.tableRefOf(from[0].relation.name).Success?
      && s.resolveEntry(s.tableRefOf(from[0].relation.name).value) == Success(TableEntryOf(r.value.table))
    ensures |from| == 1 && from[0].relation.Table? && TargetTable(from[0].relation.name, s).Success?
            && WritableEntry(TargetTable(from[0].relation.name, s).value, "DELETE", s).Failure? ==>
      r == Failure(WritableEntry(TargetTable(from[0].relation.name, s).value, "DELETE", s).error)
  {
    if |from| == 0 then Failure(InvalidDeleteStatement("DELETE FROM should have atleast one table name"))
    else if |from| > 1 then Failure(UnsupportedFeature("DELETE from multiple tables"))
    else
      match from[0].relation
      case OtherFactor => Failure(UnsupportedFeature("DELETE from TableWithJoins"))
      case Table(name) =>
        var table :- TargetTable(name, s);
        var entry :- WritableEntry(table, "DELETE", s);
        Success(DeletePlan(entry))
  }

  /** An UPDATE assignment `col = value`; the target may be written qualified. */
  datatype Assignment = Assignment(id: seq<Ast.Ident>, value: Ast.Expr)

  const QUALIFIED_UPDATE_COLUMN := "Update statement with table reference in column name"

  /**
   * The UPDATE assignment loop: every target must be a single identifier,
   * whose value is used as written (it is not normalized).
   */
  method PlanUpdateAssignments(assignments: seq<Assignment>) returns (r: Result<seq<(string, Ast.Expr)>, PlanError>)
    ensures r.Success? <==> forall i :: 0 <= i < |assignments| ==> |assignments[i].id| == 1
    ensures r.Failure? ==> r.error == UnsupportedSQLStatement(QUALIFIED_UPDATE_COLUMN)
    ensures r.Success? ==>
      |r.value| == |assignments|
      && forall i :: 0 <= i < |assignments| ==> r.value[i] == (assignments[i].id[0].value, assignments[i].value)
  {
    var updates: seq<(string, Ast.Expr)> := [];
    for i := 0 to |assignments|
      invariant |updates| == i
      invariant forall j :: 0 <= j < i ==> |assignments[j].id| == 1 && updates[j] == (assignments[j].id[0].value, assignments[j].value)
    {
      var a := assignments[i];
      if |a.id| == 1 {
        updates := updates + [(a.id[|a.id| - 1].value, a.value)];
      } else {
        return Failure(UnsupportedSQLStatement(QUALIFIED_UPDATE_COLUMN));
      }
    }
    r := Success(updates);
  }

  datatype UpdatePlan = UpdatePlan(table: TableEntry, updates: seq<(string, Ast.Expr)>)

  /**
   * UPDATE: the target is a named table, the assignments are planned, and
   * the table must resolve to one that is not external. Planning the value
   * and WHERE expressions is not part of this model.
   */
  method PlanUpdate(relation: TableFactor, assignments: seq<Assignment>, s: Session) returns (r: Result<UpdatePlan, PlanError>)
    ensures relation.OtherFactor? ==> r == Failure(UnsupportedFeature("UPDATE from TableWithJoins"))
    ensures relation.Table? && TargetTable(relation.name, s).Failure? ==> r == Failure(TargetTable(relation.name, s).error)
    ensures relation.Table? && TargetTable(relation.name, s).Success? && (exists i :: 0 <= i < |assignments| && |assignments[i].id| != 1) ==>
      r == Failure(UnsupportedSQLStatement(QUALIFIED_UPDATE_COLUMN))
    ensures r.Success? <==>
      && relation.Table? && TargetTable(relation.name, s).Success?
      && (forall i :: 0 <= i < |assignments| ==> |assignments[i].id| == 1)
      && WritableEntry(TargetTable(relation.name, s).value, "UPDATE", s).Success?
    ensures r.Success? ==>
      && r.value.table == WritableEntry(TargetTable(relation.name, s).value, "UPDATE", s).value
      && s.resolveEntry(s.tableRefOf(relation.name).value) == Success(TableEntryOf(r.value.table))
      && |r.value.updates| == |assignments|
      && forall i :: 0 <= i < |assignments| ==> r.value.updates[i] == (assignments[i].id[0].value, assignments[i].value)
    ensures relation.Table? && TargetTable(relation.name, s).Success? && (forall i :: 0 <= i < |assignments| ==> |assignments[i].id| == 1)
            && WritableEntry(TargetTable(relation.name, s).value, "UPDATE", s).Failure? ==>
      r == Failure(WritableEntry(TargetTable(relation.name, s).value, "UPDATE", s).error)
  {
    if relation.OtherFactor? {
      return Failure(UnsupportedFeature("UPDATE from TableWithJoins"));
    }
    var table := TargetTable(relation.name, s);
    if table.Failure? {
      return Failure(table.error);
    }
    var updates := PlanUpdateAssignments(assignments);
    if updates.Failure? {
      return Failure(updates.error);
    }
    var entry := WritableEntry(table.value, "UPDATE", s);
    if entry.Failure? {
      return Failure(entry.error);
    }
    r := Success(UpdatePlan(entry.value, updates.value));
  }
}
