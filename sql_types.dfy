/**
 * Mapping of SQL data types to Arrow data types (`convert_data_type`,
 * `convert_simple_data_type`) and the validation of decimal precision and
 * scale (`make_decimal_type`).
 */
module SqlTypes {
  import opened Wrappers
  import opened Errors
  import Ast
  import Strings
  import opened Arrow

  /** Rust's `x as u8` on a `u64`: keep the low eight bits. */
  function AsU8(x: Ast.U64): (r: int)
    ensures 0 <= r < 256 && (x < 256 ==> r == x)
  {
    x % 256
  }

  /** Rust's `x as i8` on a `u64`: the low eight bits read as two's complement. */
  function AsI8(x: Ast.U64): (r: int)
    ensures -128 <= r < 128 && (x < 128 ==> r == x)
  {
    var b := x % 256;
    if b >= 128 then b - 256 else b
  }

  function Abs(x: int): nat {
    if x < 0 then -x else x
  }

  const ONLY_SCALE_MESSAGE := "Cannot specify only scale for decimal data type"

  function DecimalRangeMessage(precision: int, scale: int): string {
    "Decimal(precision = " + Strings.IntToString(precision) + ", scale = " + Strings.IntToString(scale)
    + ") should satisfy `0 < precision <= 38`, and `scale <= precision`."
  }

  /**
   * `make_decimal_type` as written: the precision and scale are truncated to
   * `u8` and `i8` before the range check, so a precision of 294 passes as 38.
   */
  function MakeDecimalTypeAsWritten(precision: Option<Ast.U64>, scale: Option<Ast.U64>): (r: Result<ArrowType, PlanError>)
    ensures r.Success? ==>
      r.value.Decimal128? && 0 < r.value.precision <= DECIMAL128_MAX_PRECISION && Abs(r.value.scale) <= r.value.precision
    ensures precision.None? && scale.Some? ==> r == Failure(Internal(ONLY_SCALE_MESSAGE))
    ensures precision.None? && scale.None? ==> r == Success(Decimal128(DECIMAL128_MAX_PRECISION, DECIMAL_DEFAULT_SCALE))
    ensures precision.Some? ==>
      var p := AsU8(precision.value);
      var s := if scale.Some? then AsI8(scale.value) else 0;
      && (r.Success? <==> 0 < p <= DECIMAL128_MAX_PRECISION && Abs(s) <= p)
      && (r.Success? ==> r.value == Decimal128(p, s))
      && (r.Failure? ==> r.error == Internal(DecimalRangeMessage(p, s)))
  {
    var (p, s) := match (precision, scale)
      case (Some(p), Some(s)) => (AsU8(p), AsI8(s))
      case (Some(p), None) => (AsU8(p), 0)
      case (None, Some(_)) => (-1, 0)
      case (None, None) => (DECIMAL128_MAX_PRECISION, DECIMAL_DEFAULT_SCALE);
    if precision.None? && scale.Some? then
      Failure(Internal(ONLY_SCALE_MESSAGE))
    else if p == 0 || p > DECIMAL128_MAX_PRECISION || Abs(s) > p then
      Failure(Internal(DecimalRangeMessage(p, s)))
    else
      Success(Decimal128(p, s))
  }

  /**
   * `make_decimal_type` as its error message says it is meant to behave:
   * a precision of 1 to 38 and a scale no larger than the precision, checked
   * on the values as written. A missing scale is 0; neither given is the
   * maximum precision with Arrow's default scale; a scale alone is an error.
   */
  function MakeDecimalType(precision: Option<Ast.U64>, scale: Option<Ast.U64>): (r: Result<ArrowType, PlanError>)
    ensures precision.None? && scale.Some? ==> r == Failure(Internal(ONLY_SCALE_MESSAGE))
    ensures precision.None? && scale.None? ==> r == Success(Decimal128(DECIMAL128_MAX_PRECISION, DECIMAL_DEFAULT_SCALE))
    ensures precision.Some? ==>
      (r.Success? <==> 0 < precision.value <= DECIMAL128_MAX_PRECISION && scale.GetOr(0) <= precision.value)
    ensures precision.Some? && r.Success? ==> r.value == Decimal128(precision.value, scale.GetOr(0))
    ensures r.Success? ==>
      r.value.Decimal128? && 0 < r.value.precision <= DECIMAL128_MAX_PRECISION && 0 <= r.value.scale <= r.value.precision
  {
    match (precision, scale)
    case (None, Some(_)) => Failure(Internal(ONLY_SCALE_MESSAGE))
    case (None, None) => Success(Decimal128(DECIMAL128_MAX_PRECISION, DECIMAL_DEFAULT_SCALE))
    case (Some(p), _) =>
      var s := scale.GetOr(0);
      if p == 0 || p > DECIMAL128_MAX_PRECISION || s > p then
        Failure(Internal(DecimalRangeMessage(p, s)))
      else
        Success(Decimal128(p, s))
  }

  /** DECIMAL(294, 2) is accepted as Decimal128(38, 2) by the code as written. */
  lemma AsWrittenAcceptsOversizedPrecision()
    ensures MakeDecimalTypeAsWritten(Some(294), Some(2)) == Success(Decimal128(38, 2))
    ensures MakeDecimalType(Some(294), Some(2)).Failure?
  {
  }

  /** DECIMAL(10, 255) is accepted with scale -1 by the code as written. */
  lemma AsWrittenAcceptsOversizedScale()
    ensures MakeDecimalTypeAsWritten(Some(10), Some(255)) == Success(Decimal128(10, -1))
    ensures MakeDecimalType(Some(10), Some(255)).Failure?
  {
    assert AsU8(10) == 10 && AsI8(255) == -1;
  }

  /** Where the truncating casts keep their operands, the two versions agree. */
  lemma AsWrittenAgreesOnSmallValues(precision: Option<Ast.U64>, scale: Option<Ast.U64>)
    requires precision.Some? ==> precision.value < 256
    requires scale.Some? ==> scale.value < 128
    ensures MakeDecimalTypeAsWritten(precision, scale) == MakeDecimalType(precision, scale)
  {
  }

  const UNSUPPORTED_SQL_TYPE := "Unsupported SQL type"

  /** The Arrow types `convert_simple_data_type` can produce. */
  predicate IsSimpleImage(t: ArrowType) {
    match t
    case Timestamp(unit, tz) => unit == Microsecond && tz.None?
    case Time64(unit) => unit == Nanosecond
    case Decimal128(p, s) => 0 < p <= DECIMAL128_MAX_PRECISION && Abs(s) <= p
    case List(_) => false
    case _ => true
  }

  /** The Arrow types `convert_data_type` can produce: simple ones, and lists of them. */
  predicate IsImage(t: ArrowType) {
    IsSimpleImage(t)
    || (t.List? && t.item == Field("field", t.item.dataType, true) && IsSimpleImage(t.item.dataType))
  }

  /** `convert_simple_data_type`: scalar SQL types to Arrow types; arrays are not simple. */
  function ConvertSimpleDataType(sqlType: Ast.DataType): (r: Result<ArrowType, PlanError>)
    ensures r.Success? ==> IsSimpleImage(r.value)
    ensures sqlType.Array? ==> r.Failure?
  {
    if sqlType.Numeric? || sqlType.Decimal? then DecimalOf(sqlType.info)
    else ConvertNonDecimalType(sqlType)
  }

  /** The arms of `convert_simple_data_type` other than NUMERIC and DECIMAL. */
  function ConvertNonDecimalType(sqlType: Ast.DataType): (r: Result<ArrowType, PlanError>)
    requires !sqlType.Numeric? && !sqlType.Decimal?
    ensures r.Success? ==> IsSimpleImage(r.value)
    ensures sqlType.Array? ==> r.Failure?
  {
    match sqlType
    case Boolean | Bool => Success(Boolean)
    case TinyInt => Success(Int8)
    case SmallInt | Int2 => Success(Int16)
    case Int | Integer | Int4 => Success(Int32)
    case BigInt | Int8 => Success(Int64)
    case UnsignedTinyInt => Success(UInt8)
    case UnsignedSmallInt | UnsignedInt2 => Success(UInt16)
    case UnsignedInt | UnsignedInteger | UnsignedInt4 => Success(UInt32)
    case UnsignedBigInt | UnsignedInt8 => Success(UInt64)
    case Float => Success(Float32)
    case Real | Float4 => Success(Float32)
    case Double | DoublePrecision | Float8 => Success(Float64)
    case Char | Varchar | Text | String => Success(Utf8)
    case Timestamp(None, tz) =>
      if tz == Ast.Tz || tz == Ast.WithTimeZone then Failure(Internal("setting timezone unsupported"))
      else Success(Timestamp(Microsecond, None))
    case Date => Success(Date32)
    case Time(None, tz) =>
      if tz == Ast.NoTimezone || tz == Ast.WithoutTimeZone then Success(Time64(Nanosecond))
      else Failure(Internal(UNSUPPORTED_SQL_TYPE))
    case Bytea => Success(Binary)
    case _ => Failure(Internal(UNSUPPORTED_SQL_TYPE))
  }

  /**
   * The NUMERIC/DECIMAL arm: read precision and scale, then validate them
   * with `make_decimal_type` as written, truncating casts included.
   */
  function DecimalOf(info: Ast.ExactNumberInfo): Result<ArrowType, PlanError> {
    match info
    case NoNumberInfo => MakeDecimalTypeAsWritten(None, None)
    case Precision(p) => MakeDecimalTypeAsWritten(Some(p), None)
    case PrecisionAndScale(p, s) => MakeDecimalTypeAsWritten(Some(p), Some(s))
  }

  /** The NUMERIC/DECIMAL arm with the corrected check: no truncation before the range test. */
  function DecimalOfCorrected(info: Ast.ExactNumberInfo): (r: Result<ArrowType, PlanError>)
    ensures r.Success? ==> r.value.Decimal128? && 0 <= r.value.scale <= r.value.precision <= DECIMAL128_MAX_PRECISION
    ensures info.PrecisionAndScale? ==>
      (r.Success? <==> 0 < info.p <= DECIMAL128_MAX_PRECISION && info.s <= info.p)
  {
    match info
    case NoNumberInfo => MakeDecimalType(None, None)
    case Precision(p) => MakeDecimalType(Some(p), None)
    case PrecisionAndScale(p, s) => MakeDecimalType(Some(p), Some(s))
  }

  /**
   * The mapping as written and the corrected decimal arm agree on every
   * NUMERIC/DECIMAL type whose precision and scale survive the casts, and
   * the mapping accepts NUMERIC(294, 2), which the corrected arm refuses.
   */
  lemma DecimalArmAgreesOnSmallValues(info: Ast.ExactNumberInfo)
    requires info.Precision? ==> info.p < 256
    requires info.PrecisionAndScale? ==> info.p < 256 && info.s < 128
    ensures ConvertSimpleDataType(Ast.Numeric(info)) == DecimalOfCorrected(info)
    ensures ConvertSimpleDataType(Ast.Decimal(info)) == DecimalOfCorrected(info)
  {
    NumericIsDecimalOf(info);
    DecimalIsDecimalOf(info);
    match info
    case NoNumberInfo =>
    case Precision(p) => AsWrittenAgreesOnSmallValues(Some(p), None);
    case PrecisionAndScale(p, s) => AsWrittenAgreesOnSmallValues(Some(p), Some(s));
  }

  /** NUMERIC takes the NUMERIC/DECIMAL arm. */
  lemma NumericIsDecimalOf(info: Ast.ExactNumberInfo)
    ensures ConvertSimpleDataType(Ast.Numeric(info)) == DecimalOf(info)
  {
  }

  /** DECIMAL takes the NUMERIC/DECIMAL arm. */
  lemma DecimalIsDecimalOf(info: Ast.ExactNumberInfo)
    ensures ConvertSimpleDataType(Ast.Decimal(info)) == DecimalOf(info)
  {
  }

  /** NUMERIC(294, 2) maps to Decimal128(38, 2), while the corrected arm refuses it. */
  lemma MappingAcceptsOversizedPrecision()
    ensures ConvertDataType(Ast.Numeric(Ast.PrecisionAndScale(294, 2))) == Success(Decimal128(38, 2))
    ensures DecimalOfCorrected(Ast.PrecisionAndScale(294, 2)).Failure?
  {
    var t := Ast.Numeric(Ast.PrecisionAndScale(294, 2));
    assert ConvertDataType(t) == ConvertSimpleDataType(t);
    assert ConvertSimpleDataType(t) == DecimalOf(Ast.PrecisionAndScale(294, 2));
    AsWrittenAcceptsOversizedPrecision();
  }

  /**
   * `convert_data_type`: an array of a simple type becomes a nullable list
   * field named "field"; an array without element type is an error; every
   * other type goes through `convert_simple_data_type`.
   */
  function ConvertDataType(sqlType: Ast.DataType): (r: Result<ArrowType, PlanError>)
    ensures r.Success? ==> IsImage(r.value)
    ensures sqlType == Ast.Array(Ast.NoElemType) ==>
      r == Failure(Internal("Arrays with unspecified type is not supported"))
    ensures !sqlType.Array? ==> r == ConvertSimpleDataType(sqlType)
  {
    match sqlType
    case Array(AngleBracket(inner)) =>
      var t :- ConvertSimpleDataType(inner);
      Success(List(Field("field", t, true)))
    case Array(SquareBracket(inner)) =>
      var t :- ConvertSimpleDataType(inner);
      Success(List(Field("field", t, true)))
    case Array(NoElemType) => Failure(Internal("Arrays with unspecified type is not supported"))
    case _ => ConvertSimpleDataType(sqlType)
  }

  /** A SQL type that maps to a given simple Arrow type. */
  function SimpleSqlTypeFor(t: ArrowType): Ast.DataType
    requires IsSimpleImage(t)
  {
    match t
    case Boolean => Ast.Boolean
    case Int8 => Ast.TinyInt
    case Int16 => Ast.SmallInt
    case Int32 => Ast.Int
    case Int64 => Ast.BigInt
    case UInt8 => Ast.UnsignedTinyInt
    case UInt16 => Ast.UnsignedSmallInt
    case UInt32 => Ast.UnsignedInt
    case UInt64 => Ast.UnsignedBigInt
    case Float32 => Ast.Real
    case Float64 => Ast.Double
    case Utf8 => Ast.Text
    case Timestamp(_, _) => Ast.Timestamp(None, Ast.NoTimezone)
    case Date32 => Ast.Date
    case Time64(_) => Ast.Time(None, Ast.NoTimezone)
    case Decimal128(p, s) => Ast.Decimal(Ast.PrecisionAndScale(p, if s < 0 then s + 256 else s))
    case Binary => Ast.Bytea
  }

  /** A SQL type that maps to a given Arrow type of the image. */
  function SqlTypeFor(t: ArrowType): Ast.DataType
    requires IsImage(t)
  {
    if IsSimpleImage(t) then SimpleSqlTypeFor(t)
    else Ast.Array(Ast.SquareBracket(SimpleSqlTypeFor(t.item.dataType)))
  }

  /**
   * The image is exactly `IsImage`: together with the postcondition of
   * `ConvertDataType`, every Arrow type the mapping can produce is produced
   * from some SQL type, and nothing else is.
   */
  lemma ConvertDataTypeOnto(t: ArrowType)
    requires IsImage(t)
    ensures ConvertDataType(SqlTypeFor(t)) == Success(t)
  {
    if IsSimpleImage(t) {
      SimpleOnto(t);
      assert SqlTypeFor(t) == SimpleSqlTypeFor(t) && !SimpleSqlTypeFor(t).Array?;
    } else {
      var inner := SimpleSqlTypeFor(t.item.dataType);
      SimpleOnto(t.item.dataType);
      assert SqlTypeFor(t) == Ast.Array(Ast.SquareBracket(inner));
      assert t == List(Field("field", t.item.dataType, true));
    }
  }

  lemma SimpleOnto(t: ArrowType)
    requires IsSimpleImage(t)
    ensures ConvertSimpleDataType(SimpleSqlTypeFor(t)) == Success(t)
  {
    if t.Decimal128? {
      DecimalOnto(t.precision, t.scale);
    } else {
      NonDecimalOnto(t);
    }
  }

  /** Every non-decimal scalar Arrow type of the mapping comes from a SQL type of the other arms. */
  lemma NonDecimalOnto(t: ArrowType)
    requires IsSimpleImage(t) && !t.Decimal128?
    ensures ConvertSimpleDataType(SimpleSqlTypeFor(t)) == Success(t)
  {
    var sql := SimpleSqlTypeFor(t);
    assert !sql.Numeric? && !sql.Decimal?;
    assert ConvertNonDecimalType(sql) == Success(t);
  }

  /** Every decimal of the image comes from DECIMAL(p, s'), with s' the byte whose `as i8` is s. */
  lemma DecimalOnto(p: int, s: int)
    requires 0 < p <= DECIMAL128_MAX_PRECISION && Abs(s) <= p
    ensures ConvertSimpleDataType(SimpleSqlTypeFor(Decimal128(p, s))) == Success(Decimal128(p, s))
  {
    var raw := if s < 0 then s + 256 else s;
    assert AsU8(p) == p && AsI8(raw) == s;
    assert SimpleSqlTypeFor(Decimal128(p, s)) == Ast.Decimal(Ast.PrecisionAndScale(p, raw));
    assert ConvertSimpleDataType(Ast.Decimal(Ast.PrecisionAndScale(p, raw))) == DecimalOf(Ast.PrecisionAndScale(p, raw));
  }

  /** Arrays nest one level only: an array of arrays is rejected. */
  lemma NoNestedArrays(inner: Ast.ArrayElemTypeDef)
    ensures ConvertDataType(Ast.Array(Ast.AngleBracket(Ast.Array(inner)))).Failure?
    ensures ConvertDataType(Ast.Array(Ast.SquareBracket(Ast.Array(inner)))).Failure?
  {
  }
}
