/**
 * The part of the SQL parser's syntax tree that the planner core inspects:
 * identifiers, SQL data types, literal values and expressions.
 */
module Ast {
  import opened Wrappers

  /** An unsigned 64-bit integer, the width the parser uses for type precisions. */
  type U64 = x: int | 0 <= x < 0x1_0000_0000_0000_0000

  /** An identifier; `quote` is the quote character when it was written quoted. */
  datatype Ident = Ident(value: string, quote: Option<char>)

  /** A possibly qualified name such as `schema.table`, one identifier per part. */
  type ObjectName = seq<Ident>

  datatype TimezoneInfo = NoTimezone | WithTimeZone | WithoutTimeZone | Tz

  datatype ExactNumberInfo =
    | NoNumberInfo
    | Precision(p: U64)
    | PrecisionAndScale(p: U64, s: U64)

  /**
   * SQL data types. Every type the planner maps is a constructor of its own;
   * `Regclass` and `Custom` are also what the oid preprocessor looks for, and
   * `OtherType` stands for every type the mapping lists as unsupported
   * (INT64, NVARCHAR, JSON, UUID, BLOB, INTERVAL, ENUM, STRUCT, ...).
   * Display widths such as the 4 of INT(4) are ignored by the mapping and are
   * not represented.
   */
  datatype DataType =
    | Boolean | Bool
    | TinyInt | SmallInt | Int2 | Int | Integer | Int4 | BigInt | Int8
    | UnsignedTinyInt | UnsignedSmallInt | UnsignedInt2 | UnsignedInt | UnsignedInteger
    | UnsignedInt4 | UnsignedBigInt | UnsignedInt8
    | Float | Real | Float4 | Double | DoublePrecision | Float8
    | Char | Varchar | Text | String
    | Timestamp(precision: Option<U64>, tz: TimezoneInfo)
    | Date
    | Time(precision: Option<U64>, tz: TimezoneInfo)
    | Numeric(info: ExactNumberInfo)
    | Decimal(info: ExactNumberInfo)
    | Bytea
    | Array(elem: ArrayElemTypeDef)
    | Regclass
    // A user-named type; `name` is the rendering (`Display`) of its object
    // name, so a quoted "OID" renders with its quotes and is not `OID`.
    | Custom(name: string)
    | OtherType(display: string)

  datatype ArrayElemTypeDef =
    | NoElemType
    | AngleBracket(inner: DataType)
    | SquareBracket(inner: DataType)

  /** Literal values. */
  datatype Value =
    | Number(digits: string, long: bool)
    | SingleQuotedString(s: string)
    | DoubleQuotedString(s: string)
    | EscapedStringLiteral(s: string)
    | BooleanValue(b: bool)
    | NullValue

  /** Expressions: enough shapes to nest casts and literals at any depth. */
  datatype Expr =
    | Identifier(ident: Ident)
    | Literal(value: Value)
    | Cast(expr: Expr, dataType: DataType)
    | UnaryOp(op: string, expr: Expr)
    | BinaryOp(left: Expr, op: string, right: Expr)
    | Nested(expr: Expr)

  /** A column of a CREATE TABLE column list. */
  datatype ColumnDef = ColumnDef(name: Ident, dataType: DataType)
}
