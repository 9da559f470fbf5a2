/** The Arrow data types and fields the planner produces. */
module Arrow {
  import opened Wrappers

  datatype TimeUnit = Second | Millisecond | Microsecond | Nanosecond

  datatype ArrowType =
    | Boolean
    | Int8 | Int16 | Int32 | Int64
    | UInt8 | UInt16 | UInt32 | UInt64
    | Float32 | Float64
    | Utf8
    | Timestamp(unit: TimeUnit, tz: Option<string>)
    | Date32
    | Time64(timeUnit: TimeUnit)
    | Decimal128(precision: int, scale: int)
    | Binary
    | List(item: Field)

  datatype Field = Field(name: string, dataType: ArrowType, nullable: bool) {

    function WithName(n: string): Field {
      this.(name := n)
    }

    function WithDataType(t: ArrowType): Field {
      this.(dataType := t)
    }
  }

  /** Arrow's 128-bit decimals hold at most 38 decimal digits. */
  const DECIMAL128_MAX_PRECISION: int := 38

  /** The scale Arrow uses for a decimal declared without precision or scale. */
  const DECIMAL_DEFAULT_SCALE: int := 10
}
