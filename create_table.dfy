/**
 * The CreateTable logical-plan extension node: its capabilities as a node of
 * the query engine's plan, and its conversion to and from the wire record
 * that carries it between processes. The bytes of the wire form and the
 * conversions of its parts (table name, schema, source plan) belong to other
 * crates and are parameters here.
 */
module CreateTableNode {
  import opened Wrappers
  import opened Names
  import Arrow

  const EXTENSION_NAME: string := "CreateTable"

  /** A schema of the query engine: its fields, in order. */
  datatype Schema = Schema(fields: seq<Arrow.Field>)

  /** A logical plan and a logical expression of the query engine, by their rendering. */
  datatype LogicalPlan = LogicalPlan(display: string)
  datatype LogicalExpr = LogicalExpr(display: string)

  /** The node itself. */
  datatype CreateTable = CreateTable(
    tableName: TableReference,
    ifNotExists: bool,
    schema: Schema,
    source: Option<LogicalPlan>)
  {
    /** `name`: the extension's name. */
    function Name(): (r: string)
      ensures r == EXTENSION_NAME
    {
      EXTENSION_NAME
    }

    /** `inputs`: the source plan when there is one, nothing otherwise. */
    function Inputs(): (r: seq<LogicalPlan>)
      ensures |r| == (if source.Some? then 1 else 0)
      ensures source.Some? ==> r[0] == source.value
    {
      match source
      case Some(src) => [src]
      case None => []
    }

    /** `expressions`: the node holds no expressions. */
    function Expressions(): (r: seq<LogicalExpr>)
      ensures r == []
    {
      []
    }

    /** `fmt_for_explain`: EXPLAIN shows the extension's name. */
    function FmtForExplain(): (r: string)
      ensures r == Name()
    {
      EXTENSION_NAME
    }

    /** `from_template`: the expressions and inputs given are ignored. */
    function FromTemplate(exprs: seq<LogicalExpr>, inputs: seq<LogicalPlan>): (r: CreateTable)
      ensures r == this
    {
      this
    }
  }

  // ---- The wire record ----

  /** The wire forms of a table reference, a schema and a plan; their content is opaque here. */
  datatype WireTableReference = WireTableReference(bytes: seq<bv8>)
  datatype WireSchema = WireSchema(bytes: seq<bv8>)
  datatype WirePlan = WirePlan(bytes: seq<bv8>)

  /** The wire record of the node; every message field is optional on the wire. */
  datatype WireCreateTable = WireCreateTable(
    tableName: Option<WireTableReference>,
    ifNotExists: bool,
    schema: Option<WireSchema>,
    source: Option<WirePlan>)

  /** The tagged union of extension records, and its envelope. */
  datatype WireExtensionType = CreateTableTag(createTable: WireCreateTable) | OtherTag(tag: string)
  datatype WireExtension = WireExtension(inner: Option<WireExtensionType>)

  datatype ProtoConvError =
    | RequiredField(msg: string)
    | UnsupportedSerialization(msg: string)
    | Conversion(msg: string)

  /** Errors of the node's extension hooks; `Panic` is an `unwrap` that fails. */
  datatype ExtensionError = Internal(msg: string) | Panic(msg: string)

  /** The conversions of the node's parts to and from their wire forms. */
  datatype Codec = Codec(
    tableToWire: TableReference -> Result<WireTableReference, ProtoConvError>,
    tableFromWire: WireTableReference -> Result<TableReference, ProtoConvError>,
    schemaToWire: Schema -> Result<WireSchema, ProtoConvError>,
    schemaFromWire: WireSchema -> Result<Schema, ProtoConvError>,
    planToWire: LogicalPlan -> Result<WirePlan, string>,
    encodeExtension: WireExtension -> Result<seq<bv8>, string>)

  const TABLE_NAME_REQUIRED: string := "table_name is required"
  const SCHEMA_REQUIRED: string := "schema name is required"
  const SOURCE_UNSUPPORTED: string := "source is in create table not yet supported"

  /**
   * `TryFrom<proto CreateTable>`: the table name must be present and convert,
   * then the schema must, and the record must carry no source plan.
   */
  function Decode(proto: WireCreateTable, codec: Codec): (r: Result<CreateTable, ProtoConvError>)
    ensures proto.tableName.None? ==> r == Failure(RequiredField(TABLE_NAME_REQUIRED))
    ensures proto.tableName.Some? && codec.tableFromWire(proto.tableName.value).Failure? ==>
              r == Failure(codec.tableFromWire(proto.tableName.value).error)
    ensures (proto.tableName.Some? && codec.tableFromWire(proto.tableName.value).Success? && proto.schema.None?) ==>
              r == Failure(RequiredField(SCHEMA_REQUIRED))
    ensures (proto.tableName.Some? && codec.tableFromWire(proto.tableName.value).Success?
             && proto.schema.Some? && codec.schemaFromWire(proto.schema.value).Failure?) ==>
              r == Failure(codec.schemaFromWire(proto.schema.value).error)
    ensures (proto.tableName.Some? && codec.tableFromWire(proto.tableName.value).Success?
             && proto.schema.Some? && codec.schemaFromWire(proto.schema.value).Success? && proto.source.Some?) ==>
              r == Failure(UnsupportedSerialization(SOURCE_UNSUPPORTED))
    ensures r.Success? <==>
              proto.tableName.Some? && codec.tableFromWire(proto.tableName.value).Success?
              && proto.schema.Some? && codec.schemaFromWire(proto.schema.value).Success?
              && proto.source.None?
    ensures r.Success? ==>
              r.value.source.None? && r.value.ifNotExists == proto.ifNotExists
              && Some(r.value.tableName) == ValueOf(codec.tableFromWire(proto.tableName.value))
              && r.value.schema == codec.schemaFromWire(proto.schema.value).value
  {
    var wireName :- Required(proto.tableName, TABLE_NAME_REQUIRED);
    var tableName :- codec.tableFromWire(wireName);
    var wireSchema :- Required(proto.schema, SCHEMA_REQUIRED);
    var schema :- codec.schemaFromWire(wireSchema);
    if proto.source.Some? then
      Failure(UnsupportedSerialization(SOURCE_UNSUPPORTED))
    else
      Success(CreateTable(tableName, proto.ifNotExists, schema, None))
  }

  /** `ok_or(RequiredField(msg))`. */
  function Required<T>(field: Option<T>, msg: string): Result<T, ProtoConvError> {
    match field
    case Some(v) => Success(v)
    case None => Failure(RequiredField(msg))
  }

  /** `Result::ok`: the value of a success, nothing for a failure. */
  function ValueOf<T, E>(r: Result<T, E>): Option<T> {
    match r
    case Success(v) => Some(v)
    case Failure(_) => None
  }

  // ---- Extension hooks ----

  /** A node of a plan extension: a CreateTable node or a node of another kind. */
  datatype ExtensionNode = CreateTableNode(node: CreateTable) | OtherNode(name: string)

  const UNSUPPORTED_EXTENSION: string := "CreateTable::try_from_extension: unsupported extension"

  /** `try_decode_extension`: a copy of a CreateTable node, an internal error for any other node. */
  function TryDecodeExtension(extension: ExtensionNode): (r: Result<CreateTable, ExtensionError>)
    ensures extension.CreateTableNode? <==> r.Success?
    ensures extension.CreateTableNode? ==> r.value == extension.node
    ensures extension.OtherNode? ==> r.error == Internal(UNSUPPORTED_EXTENSION)
  {
    match extension
    case CreateTableNode(node) => Success(node)
    case OtherNode(_) => Failure(Internal(UNSUPPORTED_EXTENSION))
  }

  /**
   * The record `try_encode` builds: a table name or schema that does not
   * convert is dropped (`.ok()`), while a source plan that does not encode
   * makes the encoder panic.
   */
  function EncodeRecord(node: CreateTable, codec: Codec): (r: Result<WireExtension, ExtensionError>)
    ensures r.Failure? <==> node.source.Some? && codec.planToWire(node.source.value).Failure?
    ensures r.Failure? ==> r.error == Panic("unable to encode source: " + codec.planToWire(node.source.value).error)
    ensures r.Success? ==>
              r.value.inner.Some? && r.value.inner.value.CreateTableTag?
              && var rec := r.value.inner.value.createTable;
              rec.tableName == ValueOf(codec.tableToWire(node.tableName))
              && rec.ifNotExists == node.ifNotExists
              && rec.schema == ValueOf(codec.schemaToWire(node.schema))
              && rec.source.Some? == node.source.Some?
              && (node.source.Some? ==> rec.source == Some(codec.planToWire(node.source.value).value))
  {
    var source :- match node.source
      case None => Success(None)
      case Some(src) =>
        match codec.planToWire(src)
        case Success(p) => Success(Some(p))
        case Failure(e) => Failure(Panic("unable to encode source: " + e));
    var rec := WireCreateTable(ValueOf(codec.tableToWire(node.tableName)), node.ifNotExists,
                               ValueOf(codec.schemaToWire(node.schema)), source);
    Success(WireExtension(Some(CreateTableTag(rec))))
  }

  /** The byte buffer `try_encode` appends to. */
  class Buffer {
    var bytes: seq<bv8>

    constructor(initial: seq<bv8>)
      ensures bytes == initial
    {
      bytes := initial;
    }
  }

  /**
   * `try_encode`: build the record and append its encoding to `buf`; an
   * encoding error is an internal error and leaves `buf` as it was.
   */
  method TryEncode(node: CreateTable, buf: Buffer, codec: Codec) returns (r: Result<(), ExtensionError>)
    modifies buf
    ensures EncodeRecord(node, codec).Failure? ==> r == Failure(EncodeRecord(node, codec).error) && buf.bytes == old(buf.bytes)
    ensures EncodeRecord(node, codec).Success? ==>
              match codec.encodeExtension(EncodeRecord(node, codec).value)
              case Success(bytes) => r == Success(()) && buf.bytes == old(buf.bytes) + bytes
              case Failure(e) => r == Failure(Internal(e)) && buf.bytes == old(buf.bytes)
  {
    var record := EncodeRecord(node, codec);
    if record.Failure? {
      return Failure(record.error);
    }
    var encoded := codec.encodeExtension(record.value);
    match encoded {
      case Success(bytes) =>
        buf.bytes := buf.bytes + bytes;
        r := Success(());
      case Failure(e) =>
        r := Failure(Internal(e));
    }
  }

  // ---- Round trips ----

  /** The parts of `node` survive their wire conversions. */
  predicate PartsRoundTrip(node: CreateTable, codec: Codec) {
    && codec.tableToWire(node.tableName).Success?
    && codec.tableFromWire(codec.tableToWire(node.tableName).value) == Success(node.tableName)
    && codec.schemaToWire(node.schema).Success?
    && codec.schemaFromWire(codec.schemaToWire(node.schema).value) == Success(node.schema)
  }

  /** A source-less node whose parts survive their conversions decodes back to itself. */
  lemma EncodeDecodeRoundTrip(node: CreateTable, codec: Codec)
    requires node.source.None?
    requires PartsRoundTrip(node, codec)
    ensures EncodeRecord(node, codec).Success?
    ensures Decode(EncodeRecord(node, codec).value.inner.value.createTable, codec) == Success(node)
  {
  }

  /** A node with a source plan encodes, but its record is refused on decoding. */
  lemma SourceDoesNotRoundTrip(node: CreateTable, codec: Codec)
    requires node.source.Some? && codec.planToWire(node.source.value).Success?
    requires PartsRoundTrip(node, codec)
    ensures EncodeRecord(node, codec).Success?
    ensures Decode(EncodeRecord(node, codec).value.inner.value.createTable, codec)
              == Failure(UnsupportedSerialization(SOURCE_UNSUPPORTED))
  {
  }

  /** A table name that does not convert is dropped on encoding and reported missing on decoding. */
  lemma UnconvertibleNameIsReportedMissing(node: CreateTable, codec: Codec)
    requires codec.tableToWire(node.tableName).Failure?
    requires EncodeRecord(node, codec).Success?
    ensures Decode(EncodeRecord(node, codec).value.inner.value.createTable, codec)
              == Failure(RequiredField(TABLE_NAME_REQUIRED))
  {
  }

  /** Decoding a record never yields a node with inputs, so its plan has no children. */
  lemma DecodedHasNoInputs(proto: WireCreateTable, codec: Codec)
    requires Decode(proto, codec).Success?
    ensures Decode(proto, codec).value.Inputs() == []
  {
  }
}
