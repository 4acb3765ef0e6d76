/** The two stateful collaborators the record codec drives: the forward-only binary
    field scanner and the caller's index-addressed composite sink. */
module Composite {
  import opened PgType

  /** A cursor over the fields of one record buffer. `rp` counts the fields consumed;
      after a `Next` that returned true, the current field is `fields[rp - 1]`. */
  class CompositeBinaryScanner {
    const fieldCount: nat
    const fields: seq<Field>
    const err: Option<Error>
    var rp: nat

    ghost predicate Valid()
      reads this
    {
      rp <= |fields|
    }

    constructor (stream: FieldStream)
      ensures Valid() && rp == 0
      ensures fieldCount == stream.fieldCount && fields == stream.fields && err == stream.err
    {
      fieldCount, fields, err := stream.fieldCount, stream.fields, stream.err;
      rp := 0;
    }

    /** Advances to the next field; false once every field has been yielded. */
    method Next() returns (more: bool)
      requires Valid()
      modifies this
      ensures Valid()
      ensures more <==> old(rp) < |fields|
      ensures rp == if more then old(rp) + 1 else old(rp)
    {
      more := rp < |fields|;
      if more {
        rp := rp + 1;
      }
    }

    function FieldCount(): nat
    {
      fieldCount
    }

    function OID(): Oid
      reads this
      requires Valid() && 0 < rp
    {
      fields[rp - 1].oid
    }

    function Bytes(): Option<seq<byte>>
      reads this
      requires Valid() && 0 < rp
    {
      fields[rp - 1].bytes
    }

    /** The terminal error, reported once the cursor has run past the last field. */
    function Err(): Option<Error>
      reads this
    {
      if rp == |fields| then err else None
    }
  }

  /** A destination that hands out one field destination per index. `slots[i]` is what
      `ScanIndex(i)` returns (None stands for nil, and every index past `slots` is nil);
      `nullResult` is what `ScanNull` reports; a value a field plan decodes for index `i`
      lands in `values[i]`. */
  class CompositeIndexScanner {
    const slots: seq<Option<Target>>
    const nullResult: Option<Error>
    const values: array<Option<Value>>
    var scannedNull: bool

    ghost predicate Valid()
    {
      values.Length == |slots|
    }

    constructor (slots: seq<Option<Target>>, nullResult: Option<Error>)
      ensures Valid() && fresh(values) && !scannedNull
      ensures this.slots == slots && this.nullResult == nullResult
      ensures forall i :: 0 <= i < values.Length ==> values[i] == None
    {
      this.slots, this.nullResult := slots, nullResult;
      values := new Option<Value>[|slots|](_ => None);
      scannedNull := false;
    }

    function ScanIndex(i: nat): Option<Target>
    {
      if i < |slots| then slots[i] else None
    }

    method ScanNull() returns (e: Option<Error>)
      modifies this
      ensures scannedNull && e == nullResult
    {
      scannedNull := true;
      e := nullResult;
    }
  }
}
