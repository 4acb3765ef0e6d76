# pgx generic `record` codec, modelled in Dafny

This project models `RecordCodec` from pgx's `pgtype` package: the codec for PostgreSQL's
anonymous composite type `record` (the values `row(...)` builds). The codec decodes only
the binary wire format, because only the binary form carries a type OID for each field.
It never encodes, because PostgreSQL accepts no generic record as query input. For each
field it asks the connection's type registry (`ConnInfo.PlanScan`) for a plan keyed by
the field's OID, the binary format and a destination. It then runs that plan on the
field's bytes.

Files:

- `pgtype.dfy` (module `PgType`): OIDs (unsigned 32-bit), format codes (signed 16-bit,
  text = 0, binary = 1) and bytes. It also holds the `Value` datatype that stands for
  Go's `interface{}` results, destination shapes (`Target`), error kinds, the registry
  (`ConnInfo`, a function from OID, format and destination to an optional field plan),
  and the binary scanner's output (`FieldStream`: the declared field count, the fields
  in wire order, and an optional terminal error).
- `composite.dfy` (module `Composite`): the two stateful collaborators, as classes.
  `CompositeBinaryScanner` is a cursor (`rp`) over a `FieldStream`, with `Next`, `OID`,
  `Bytes`, `FieldCount` and `Err`. `CompositeIndexScanner` is the caller's sink: a table
  of per-index destinations (`ScanIndex`), the outcome of `ScanNull`, and an array of
  slots that field plans write into.
- `record_codec.dfy` (module `RecordCodec`): the codec. The format and plan dispatch
  functions are pure. `Scan` and `DecodeValue` are methods whose loops drive the scanner
  cursor and write into arrays. Both are proved against one declarative account of the
  loop. Each field takes a `Step` (skip, store a value, or fail). `FirstFail` is the index
  of the earliest failing step, and `FieldsOutcome` is the error the loop ends with.

A Go nil byte slice is `None` and a non-nil slice is `Some(bytes)`. A SQL-null field
reaches its plan as `None`, exactly as the source passes `scanner.Bytes()` through. Each
loop body is factored out the same way. `RunFieldPlan` does the registry lookup and the
plan call. `ScanFieldsInto` holds the loop of `Scan` and `DecodeFields` the binary branch
of `DecodeValue`. The order of calls is the source's.

The doc comment on `RecordCodec` (pgtype/record_codec.go:10-13) says the codec can only
decode the binary format. The code's text branch (pgtype/record_codec.go:87-88) still
returns the input bytes as a string without failing. The model follows the code.

Other behaviour the model keeps exactly as the code has it:

- `PlanScan` returns a plan only for a destination that is a `CompositeIndexScanner`
  (pgtype/record_codec.go:30-32). No other destination gets one.
- `Scan` is not atomic (pgtype/record_codec.go:59-62). When field `k` fails, the slots
  of the stored fields before `k` keep their new values, and the error is returned.
- A field plan's error and the scanner's terminal error are returned unchanged. A field
  failure is returned before the scanner's error is consulted (pgtype/record_codec.go:60-67).

## Model

| member | source | states |
|---|---|---|
| `RecordCodec.FormatSupported` | pgtype/record_codec.go:16-18 | only the binary format can be supported; the text format never is |
| `RecordCodec.PreferredFormat` | pgtype/record_codec.go:20-22 | the preferred format is a supported one, and it is not text |
| `RecordCodec.OnlyPreferredFormatSupported` | pgtype/record_codec.go:16-22 | a format is supported exactly when it is the preferred (binary) format |
| `RecordCodec.PlanEncode` | pgtype/record_codec.go:24-26 | no encode plan for any OID, format or value |
| `RecordCodec.PlanScan` | pgtype/record_codec.go:28-37 | a plan exists iff the format is binary and the target is a composite index sink; the plan carries the caller's registry |
| `RecordCodec.PlanScanIgnoresOidAndActualTarget` | pgtype/record_codec.go:28-37 | the plan does not depend on the OID or on `actualTarget` |
| `RecordCodec.FieldStepCases` | pgtype/record_codec.go:52-62 | a field is skipped iff it has no destination; a missing plan fails with the field's OID; a field is stored iff a plan exists and succeeds on its bytes |
| `RecordCodec.FirstFail` | pgtype/record_codec.go:51-64 | the loop stops at the least failing field index: every earlier field got through, and the field at that index failed (or no field failed) |
| `RecordCodec.FirstFailAt` | pgtype/record_codec.go:51-64 | a failing field that every earlier field got past is the first failure |
| `RecordCodec.FieldsOutcomeIsEarliestFailure` | pgtype/record_codec.go:54-70 | the loop ends with error e iff e is the error of the earliest failing field, or no field fails and e is the scanner's terminal error |
| `RecordCodec.FieldsOutcomeNone` | pgtype/record_codec.go:59-70 | the loop ends without error iff no field fails and the scanner reports no error |
| `RecordCodec.LookedUpExactly` | pgtype/record_codec.go:51-54 | the registry is consulted exactly for the non-skipped fields, each once, in increasing index order |
| `RecordCodec.ScanLooksUpOnlyDestinations` | pgtype/record_codec.go:51-55 | `Scan` looks field j up iff the loop reaches j and `ScanIndex(j)` is not nil |
| `RecordCodec.ScanStoresDecodedValues` | pgtype/record_codec.go:52-62 | a slot filled by `Scan` holds what the registry's plan for that field's OID and destination decodes from the field's bytes; every other slot is unchanged |
| `RecordCodec.RunFieldPlan` | pgtype/record_codec.go:54-62 | looking up and running the plan for the current field yields that field's value, or the unsupported-OID error, or the plan's own error unchanged |
| `RecordCodec.Scan` | pgtype/record_codec.go:43-71 | nil input returns the sink's `ScanNull` outcome, marks the sink null, touches no slot and makes no lookup; otherwise the result is the loop's outcome and the slots and lookups are as the loop leaves them |
| `RecordCodec.ScanFieldsInto` | pgtype/record_codec.go:50-70 | fields go in wire order to `ScanIndex(i)`; the result is the earliest field failure, else the scanner's error; slots before the stop hold their decoded values; lookups are the non-skipped visited fields |
| `RecordCodec.DecodeDatabaseSQLValue` | pgtype/record_codec.go:73-79 | nil input gives a nil value and no error; any other input gives the not-implemented error and no value |
| `RecordCodec.DecodeFields` | pgtype/record_codec.go:90-111 | on success, a slice of exactly `FieldCount()` values whose i-th is field i decoded by its registry plan, nil past the fields yielded; otherwise the loop's error alone |
| `RecordCodec.DecodeValue` | pgtype/record_codec.go:81-116 | nil input gives nil for every format; text gives the bytes as a string; binary behaves as `DecodeFields`; any other format fails with the unknown-format error carrying the code |

## Left out

- The byte layout of the binary composite (big-endian field count, then OID, length and
  payload per field) is not modelled. `NewCompositeBinaryScanner` is not part of this
  model: a `Layout` parameter maps the buffer to the scanner's field sequence, declared
  count and terminal error.
- `ConnInfo.PlanScan` and the concrete per-type decoders are not part of this model. They
  are the abstract registry function that the callers pass in.
- Go's type switch and type assertion on `target` become the `Target` tag and the
  `CompositeIndexScanner` class. Interface boxing is not modelled.
- The `%v` rendering of the destination in the unsupported-OID message is not modelled.
  No `fmt.Errorf` message text is modelled. Errors keep their kind and the OID or format
  code they carry.
- `driver.Value` and the database/sql integration are not modelled beyond the two cases
  of `DecodeDatabaseSQLValue`.
- The caller's `ScanIndex` is modelled as a fixed table of destinations, with nil past
  its end. `ScanNull` is modelled as a fixed outcome. A field plan's write into its
  destination is modelled as a write of the decoded value into that index's slot. A
  failing plan writes nothing.
- DecodeValue: requires that the loop stops no later than index `FieldCount()`. It stops
  at the earliest failing field, or at the end of the fields when none fails. Otherwise the source writes past the end of `values` and panics
  (pgtype/record_codec.go:104). A panic is not a result, so it is a precondition here. A
  stream with extra fields whose earliest failure comes first is still accepted, and its
  error is returned as in the source. A negative field count is not representable here,
  since the count is a natural number.
- DecodeFields: has the same precondition as `DecodeValue`, for the same reason.
- Scan: the registry lookups are recorded in a ghost output. It is instrumentation for
  stating which fields were looked up, and has no counterpart in the source.
