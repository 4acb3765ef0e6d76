/** Values, identifiers and collaborator interfaces shared by the record codec model.
    Go's `interface{}` results become the `Value` datatype, Go's nil byte slice becomes
    `None` of an optional byte sequence, and the connection's type registry becomes a
    function from (type OID, wire format, destination) to an optional per-field plan. */
module PgType {

  newtype byte = x: int | 0 <= x < 0x100

  /** A PostgreSQL type identifier: an unsigned 32-bit integer. */
  type Oid = x: int | 0 <= x < 0x1_0000_0000

  /** A wire format code: a signed 16-bit integer. */
  type FormatCode = x: int | -0x8000 <= x < 0x8000

  const TextFormatCode: FormatCode := 0
  const BinaryFormatCode: FormatCode := 1

  datatype Option<+T> = None | Some(value: T)

  datatype Result<+T, +E> = Ok(value: T) | Err(error: E)

  /** What a decode produces in place of Go's `interface{}`: nil, a string (kept as its
      bytes, as Go strings are), an ordered slice of values, or a value built by the
      decoder of some other type. */
  datatype Value =
    | Nil
    | Str(bytes: seq<byte>)
    | Values(items: seq<Value>)
    | Native(oid: Oid, data: seq<byte>)

  /** The shape of a scan destination, as the registry and `PlanScan` distinguish it:
      an index-addressed composite sink, a pointer to an empty interface, or anything else. */
  datatype Target =
    | CompositeIndexScannerTarget
    | InterfacePointer
    | OtherTarget(kind: nat)

  /** The kinds of error the codec raises itself, and `External` for an error produced
      by a collaborator (a field plan, the binary scanner, a sink's null handler),
      which the codec passes on unchanged. */
  datatype Error =
    | UnsupportedFieldOid(oid: Oid)
    | UnknownFormatCode(format: FormatCode)
    | NotImplemented
    | External(code: nat)

  /** A resolved per-field decoder: it consumes the field's bytes, or None for SQL null. */
  type FieldPlan = Option<seq<byte>> -> Result<Value, Error>

  /** The connection's type registry, reduced to its lookup. */
  datatype ConnInfo = ConnInfo(planScan: (Oid, FormatCode, Target) -> Option<FieldPlan>)

  /** One field as the binary scanner yields it: its declared type and its payload
      (None when the field is SQL null). */
  datatype Field = Field(oid: Oid, bytes: Option<seq<byte>>)

  /** Everything the binary scanner makes of one buffer: the declared field count, the
      fields it yields in wire order, and the error it reports once it stops, if any. */
  datatype FieldStream = FieldStream(fieldCount: nat, fields: seq<Field>, err: Option<Error>)

  /** How a record buffer is split into fields; the byte layout itself is not modelled. */
  type Layout = seq<byte> -> FieldStream
}
