/**
 * The schema of a new table: `CREATE TABLE ... AS <query>` takes the query's
 * output fields and renames and retypes them by the explicit column list
 * (session_planner.rs 1262-1289); a plain `CREATE TABLE` builds nullable
 * fields from its column definitions (1297-1305).
 */
module CreateTableAs {
  import opened Wrappers
  import opened Errors
  import opened Arrow
  import Ast
  import SqlTypes
  import Statements

  /**
   * An explicit column applied to a query output field: the column's
   * normalized name and converted type replace the field's, which keeps its
   * nullability.
   */
  function RetypedField(field: Field, column: Ast.ColumnDef, s: Statements.Session): (r: Result<Field, PlanError>)
    ensures r.Success? <==> s.validateIdent(column.name).Success? && SqlTypes.ConvertDataType(column.dataType).Success?
    ensures r.Success? ==>
      r.value == Field(s.normalize(column.name), SqlTypes.ConvertDataType(column.dataType).value, field.nullable)
  {
    var _ :- s.validateIdent(column.name);
    var dataType :- SqlTypes.ConvertDataType(column.dataType);
    Success(field.WithName(s.normalize(column.name)).WithDataType(dataType))
  }

  /**
   * The CREATE TABLE AS field loop: one field per query output field; field
   * i is retyped by column i when there is one and kept otherwise; surplus
   * columns are never looked at. The first column that fails ends the loop.
   */
  method ReconcileCreateTableAs(dfFields: seq<Field>, columns: seq<Ast.ColumnDef>, s: Statements.Session)
    returns (r: Result<seq<Field>, PlanError>)
    ensures r.Success? <==>
      forall i :: 0 <= i < |dfFields| && i < |columns| ==> RetypedField(dfFields[i], columns[i], s).Success?
    ensures r.Success? ==>
      |r.value| == |dfFields|
      && forall i :: 0 <= i < |dfFields| ==>
           r.value[i] == if i < |columns| then RetypedField(dfFields[i], columns[i], s).value else dfFields[i]
    ensures r.Failure? ==>
      exists i :: 0 <= i < |dfFields| && i < |columns| && RetypedField(dfFields[i], columns[i], s) == Failure(r.error)
                  && forall j :: 0 <= j < i ==> RetypedField(dfFields[j], columns[j], s).Success?
  {
    // `next` is how many explicit columns the iterator has handed out.
    var next := 0;
    var fields: seq<Field> := [];
    for i := 0 to |dfFields|
      invariant next == if i < |columns| then i else |columns|
      invariant |fields| == i
      invariant forall j :: 0 <= j < i && j < |columns| ==> RetypedField(dfFields[j], columns[j], s).Success?
      invariant forall j :: 0 <= j < i ==>
        fields[j] == if j < |columns| then RetypedField(dfFields[j], columns[j], s).value else dfFields[j]
    {
      var field := dfFields[i];
      if next < |columns| {
        var column := columns[next];
        next := next + 1;
        var retyped := RetypedField(field, column, s);
        if retyped.Failure? {
          return Failure(retyped.error);
        }
        field := retyped.value;
      }
      fields := fields + [field];
    }
    r := Success(fields);
  }

  /** One projection expression: `CAST(col(source) AS castTo) AS alias`. */
  datatype ProjectionExpr = ProjectionExpr(sourceColumn: string, castTo: ArrowType, alias: string)

  /** The projection over the source query: field i casts output column i to its new type and name. */
  function Projection(fields: seq<Field>, dfFields: seq<Field>): (p: seq<ProjectionExpr>)
    requires |fields| == |dfFields|
    ensures |p| == |fields|
    ensures forall i :: 0 <= i < |p| ==> p[i] == ProjectionExpr(dfFields[i].name, fields[i].dataType, fields[i].name)
  {
    if fields == [] then []
    else [ProjectionExpr(dfFields[0].name, fields[0].dataType, fields[0].name)] + Projection(fields[1..], dfFields[1..])
  }

  /**
   * After a successful reconciliation the projection reads every output
   * column once, in order, and names each result by its explicit column when
   * one was given and by the output field otherwise.
   */
  lemma ProjectionNamesColumns(dfFields: seq<Field>, columns: seq<Ast.ColumnDef>, s: Statements.Session, fields: seq<Field>, i: int)
    requires |fields| == |dfFields|
    requires forall j :: 0 <= j < |dfFields| && j < |columns| ==> RetypedField(dfFields[j], columns[j], s).Success?
    requires forall j :: 0 <= j < |dfFields| ==>
      fields[j] == if j < |columns| then RetypedField(dfFields[j], columns[j], s).value else dfFields[j]
    requires 0 <= i < |dfFields|
    ensures Projection(fields, dfFields)[i].sourceColumn == dfFields[i].name
    ensures i < |columns| ==>
      Projection(fields, dfFields)[i].alias == s.normalize(columns[i].name)
      && SqlTypes.ConvertDataType(columns[i].dataType).Success?
      && Projection(fields, dfFields)[i].castTo == SqlTypes.ConvertDataType(columns[i].dataType).value
    ensures i >= |columns| ==>
      Projection(fields, dfFields)[i].alias == dfFields[i].name
      && Projection(fields, dfFields)[i].castTo == dfFields[i].dataType
  {
  }

  /** A plain column definition: validated, normalized, converted, and always nullable. */
  function ColumnField(column: Ast.ColumnDef, s: Statements.Session): (r: Result<Field, PlanError>)
    ensures r.Success? <==> s.validateIdent(column.name).Success? && SqlTypes.ConvertDataType(column.dataType).Success?
    ensures r.Success? ==>
      r.value == Field(s.normalize(column.name), SqlTypes.ConvertDataType(column.dataType).value, true)
  {
    var _ :- s.validateIdent(column.name);
    var dataType :- SqlTypes.ConvertDataType(column.dataType);
    Success(Field(s.normalize(column.name), dataType, true))
  }

  /** The plain CREATE TABLE loop: one nullable field per column definition, in order. */
  method CreateTableColumns(columns: seq<Ast.ColumnDef>, s: Statements.Session) returns (r: Result<seq<Field>, PlanError>)
    ensures r.Success? <==> forall i :: 0 <= i < |columns| ==> ColumnField(columns[i], s).Success?
    ensures r.Success? ==>
      |r.value| == |columns| && forall i :: 0 <= i < |columns| ==> r.value[i] == ColumnField(columns[i], s).value
    ensures r.Failure? ==>
      exists i :: 0 <= i < |columns| && ColumnField(columns[i], s) == Failure(r.error)
        && forall j :: 0 <= j < i ==> ColumnField(columns[j], s).Success?
  {
    var arrowCols: seq<Field> := [];
    for i := 0 to |columns|
      invariant |arrowCols| == i
      invariant forall j :: 0 <= j < i ==> ColumnField(columns[j], s).Success? && arrowCols[j] == ColumnField(columns[j], s).value
    {
      var field := ColumnField(columns[i], s);
      if field.Failure? {
        return Failure(field.error);
      }
      arrowCols := arrowCols + [field.value];
    }
    r := Success(arrowCols);
  }
}
