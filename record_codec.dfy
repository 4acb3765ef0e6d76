/** The codec for PostgreSQL's generic `record` type (the values built by `row(...)`).
    It decodes only the binary format, whose fields carry their own type OIDs, resolving
    a decoder for each field through the connection's type registry. It never encodes. */
module RecordCodec {
  import opened PgType
  import opened Composite

  /** The plan `PlanScan` hands out: scan a binary record into a composite index sink,
      looking field decoders up in `ci`. */
  datatype ScanPlan = ScanPlanBinaryRecordToCompositeIndexScanner(ci: ConnInfo)

  /** An encode plan of some other codec; the record codec never produces one. */
  datatype EncodePlan = EncodePlan

  // ---------------------------------------------------------------------------
  // Format and plan dispatch

  function FormatSupported(format: FormatCode): (r: bool)
    ensures r ==> format == BinaryFormatCode
    ensures format == TextFormatCode ==> !r
  {
    format == BinaryFormatCode
  }

  function PreferredFormat(): (f: FormatCode)
    ensures FormatSupported(f) && f != TextFormatCode
  {
    BinaryFormatCode
  }

  /** The preferred format is the one and only supported format. */
  lemma OnlyPreferredFormatSupported(format: FormatCode)
    ensures FormatSupported(format) <==> format == PreferredFormat()
  {
  }

  /** Generic records cannot be sent as query input. */
  function PlanEncode(ci: ConnInfo, oid: Oid, format: FormatCode, value: Value): (p: Option<EncodePlan>)
    ensures p == None
  {
    None
  }

  /** A plan exists exactly for binary input scanned into a composite index sink; the
      OID and `actualTarget` play no part in the decision. */
  function PlanScan(ci: ConnInfo, oid: Oid, format: FormatCode, target: Target, actualTarget: bool): (p: Option<ScanPlan>)
    ensures p.Some? <==> format == BinaryFormatCode && target == CompositeIndexScannerTarget
    ensures p.Some? ==> p.value.ci == ci
  {
    if format == BinaryFormatCode then
      match target
      case CompositeIndexScannerTarget => Some(ScanPlanBinaryRecordToCompositeIndexScanner(ci))
      case _ => None
    else
      None
  }

  /** The plan's result does not depend on the OID or on `actualTarget`. */
  lemma PlanScanIgnoresOidAndActualTarget(ci: ConnInfo, oid1: Oid, oid2: Oid, format: FormatCode, target: Target, a1: bool, a2: bool)
    ensures PlanScan(ci, oid1, format, target, a1) == PlanScan(ci, oid2, format, target, a2)
  {
  }

  // ---------------------------------------------------------------------------
  // The per-field steps both decode loops take

  /** What the loop does with one field sent to `dest`: skip it (no destination), store
      the value its plan decoded, or fail (no plan registered, or the plan failed). */
  datatype Step = Skip | Store(value: Value) | Fail(error: Error)

  function FieldStep(ci: ConnInfo, dest: Option<Target>, f: Field): Step
  {
    match dest
    case None => Skip
    case Some(t) =>
      match ci.planScan(f.oid, BinaryFormatCode, t)
      case None => Fail(UnsupportedFieldOid(f.oid))
      case Some(plan) =>
        match plan(f.bytes)
        case Err(e) => Fail(e)
        case Ok(v) => Store(v)
  }

  /** A field is skipped exactly when it has no destination; otherwise it is looked up
      and stored with the value its plan decodes, or it fails. */
  lemma FieldStepCases(ci: ConnInfo, dest: Option<Target>, f: Field)
    ensures FieldStep(ci, dest, f).Skip? <==> dest.None?
    ensures dest.Some? && ci.planScan(f.oid, BinaryFormatCode, dest.value).None? ==>
              FieldStep(ci, dest, f) == Fail(UnsupportedFieldOid(f.oid))
    ensures FieldStep(ci, dest, f).Store? <==>
              dest.Some? && ci.planScan(f.oid, BinaryFormatCode, dest.value).Some? &&
              ci.planScan(f.oid, BinaryFormatCode, dest.value).value(f.bytes).Ok?
  {
  }

  /** The steps of `Scan`: field `i` goes to the sink's destination for index `i`. */
  function ScanSteps(ci: ConnInfo, sink: CompositeIndexScanner, fields: seq<Field>): seq<Step>
  {
    seq(|fields|, i requires 0 <= i < |fields| => FieldStep(ci, sink.ScanIndex(i), fields[i]))
  }

  /** The steps of `DecodeValue`: every field goes to a fresh empty interface. */
  function DecodeSteps(ci: ConnInfo, fields: seq<Field>): seq<Step>
  {
    seq(|fields|, i requires 0 <= i < |fields| => FieldStep(ci, Some(InterfacePointer), fields[i]))
  }

  /** The index of the earliest failing step, or `|steps|` when none fails. */
  function FirstFail(steps: seq<Step>): (k: nat)
    ensures k <= |steps|
    ensures forall j :: 0 <= j < k ==> !steps[j].Fail?
    ensures k < |steps| ==> steps[k].Fail?
  {
    if steps == [] || steps[0].Fail? then 0 else 1 + FirstFail(steps[1..])
  }

  /** The earliest failure is the failing step that every step before it gets past. */
  lemma FirstFailAt(steps: seq<Step>, k: nat)
    requires k <= |steps| && forall j :: 0 <= j < k ==> !steps[j].Fail?
    requires k < |steps| ==> steps[k].Fail?
    ensures FirstFail(steps) == k
  {
  }

  /** The error a loop over `steps` ends with when the scanner's terminal error is
      `terminal`: the earliest failing step's error, else the terminal error. */
  function FieldsOutcome(steps: seq<Step>, terminal: Option<Error>): Option<Error>
  {
    var k := FirstFail(steps);
    if k < |steps| then Some(steps[k].error) else terminal
  }

  /** Which error wins: a field failure, the earliest one, beats the scanner's terminal
      error; the terminal error is reported only when every field went through. */
  lemma FieldsOutcomeIsEarliestFailure(steps: seq<Step>, terminal: Option<Error>, e: Error)
    ensures FieldsOutcome(steps, terminal) == Some(e) <==>
              (exists k :: 0 <= k < |steps| && steps[k] == Fail(e) && forall j :: 0 <= j < k ==> !steps[j].Fail?) ||
              ((forall j :: 0 <= j < |steps| ==> !steps[j].Fail?) && terminal == Some(e))
  {
  }

  /** A loop over `steps` ends without error exactly when no field fails and the scanner
      reports no terminal error. */
  lemma FieldsOutcomeNone(steps: seq<Step>, terminal: Option<Error>)
    ensures FieldsOutcome(steps, terminal) == None <==>
              (forall j :: 0 <= j < |steps| ==> !steps[j].Fail?) && terminal == None
  {
  }

  /** The indices among the first `hi` steps whose field was looked up in the registry:
      every step but a skip. */
  ghost function LookedUp(steps: seq<Step>, hi: nat): seq<nat>
    requires hi <= |steps|
  {
    if hi == 0 then []
    else LookedUp(steps, hi - 1) + (if steps[hi - 1].Skip? then [] else [hi - 1])
  }

  /** Exactly the non-skipped fields are looked up, each once, in wire order. */
  lemma {:induction false} LookedUpExactly(steps: seq<Step>, hi: nat)
    requires hi <= |steps|
    ensures forall x: nat :: x in LookedUp(steps, hi) <==> x < hi && !steps[x].Skip?
    ensures forall a, b :: 0 <= a < b < |LookedUp(steps, hi)| ==> LookedUp(steps, hi)[a] < LookedUp(steps, hi)[b]
  {
    if hi > 0 {
      LookedUpExactly(steps, hi - 1);
      var prev := LookedUp(steps, hi - 1);
      forall a | 0 <= a < |prev|
        ensures prev[a] < hi - 1
      {
        assert prev[a] in prev;
      }
    }
  }

  /** How many fields a loop over `steps` visits: up to and including the first failure. */
  function VisitedCount(steps: seq<Step>): (n: nat)
    ensures n <= |steps|
  {
    var k := FirstFail(steps);
    if k < |steps| then k + 1 else k
  }

  /** A loop that got past the first `k` fields and fails on field `k` stops there,
      having looked field `k` up last. */
  lemma StopsAt(steps: seq<Step>, k: nat)
    requires k < |steps| && steps[k].Fail?
    requires forall j :: 0 <= j < k ==> !steps[j].Fail?
    ensures FirstFail(steps) == k && VisitedCount(steps) == k + 1
    ensures LookedUp(steps, k + 1) == LookedUp(steps, k) + [k]
  {
    FirstFailAt(steps, k);
  }

  /** A loop that got past every field visits them all. */
  lemma RunsThrough(steps: seq<Step>)
    requires forall j :: 0 <= j < |steps| ==> !steps[j].Fail?
    ensures FirstFail(steps) == |steps| == VisitedCount(steps)
  {
    FirstFailAt(steps, |steps|);
  }

  /** The part of the loop body both decode loops share: look up the registry's plan for
      the scanner's current field and destination `dest`, and run it on the field's bytes.
      The outcome is exactly the field's step: its value, or the error it fails with. */
  method RunFieldPlan(ci: ConnInfo, scanner: CompositeBinaryScanner, dest: Target) returns (res: Result<Value, Error>)
    requires scanner.Valid() && 0 < scanner.rp
    ensures var step := FieldStep(ci, Some(dest), scanner.fields[scanner.rp - 1]);
            match res
            case Ok(v) => step == Store(v)
            case Err(e) => step == Fail(e)
  {
    var fieldPlan := ci.planScan(scanner.OID(), BinaryFormatCode, dest);
    if fieldPlan.None? {
      return Err(UnsupportedFieldOid(scanner.OID()));
    }
    res := fieldPlan.value(scanner.Bytes());
  }

  // ---------------------------------------------------------------------------
  // Scanning a binary record into a composite index sink

  /** The fields `Scan` sees: none when the input is nil. */
  function ScanFields(layout: Layout, src: Option<seq<byte>>): seq<Field>
  {
    if src.None? then [] else layout(src.value).fields
  }

  /** The steps `Scan` takes for `src`. */
  function ScanStepsFor(ci: ConnInfo, layout: Layout, src: Option<seq<byte>>, sink: CompositeIndexScanner): seq<Step>
  {
    ScanSteps(ci, sink, ScanFields(layout, src))
  }

  /** The error `Scan` returns. */
  function ScanOutcome(ci: ConnInfo, layout: Layout, src: Option<seq<byte>>, sink: CompositeIndexScanner): Option<Error>
  {
    if src.None? then sink.nullResult
    else FieldsOutcome(ScanStepsFor(ci, layout, src, sink), layout(src.value).err)
  }

  /** The sink's slots once the loop has run over the first `n` steps: slot `j` holds the
      value decoded for field `j` when that field was stored, and what it held before
      otherwise. */
  function SlotsAfter(steps: seq<Step>, n: nat, before: seq<Option<Value>>): seq<Option<Value>>
  {
    seq(|before|, j requires 0 <= j < |before| =>
      if j < n && j < |steps| && steps[j].Store? then Some(steps[j].value) else before[j])
  }

  /** Before any step, the slots are untouched. */
  lemma SlotsAfterNone(steps: seq<Step>, before: seq<Option<Value>>)
    ensures SlotsAfter(steps, 0, before) == before
  {
  }

  /** One more step stores its value into its own slot and changes nothing else. */
  lemma SlotsAfterStep(steps: seq<Step>, n: nat, before: seq<Option<Value>>)
    requires n < |steps|
    ensures n < |before| && steps[n].Store? ==>
              SlotsAfter(steps, n + 1, before) == SlotsAfter(steps, n, before)[n := Some(steps[n].value)]
    ensures n >= |before| || !steps[n].Store? ==> SlotsAfter(steps, n + 1, before) == SlotsAfter(steps, n, before)
  {
  }

  /** `Scan` consults the registry only for the fields it visits that have a
      destination: a field the sink declines gets no lookup. */
  lemma {:induction false} ScanLooksUpOnlyDestinations(ci: ConnInfo, sink: CompositeIndexScanner, fields: seq<Field>)
    ensures var steps := ScanSteps(ci, sink, fields);
            forall j: nat :: j in LookedUp(steps, VisitedCount(steps)) <==>
              j < VisitedCount(steps) && sink.ScanIndex(j).Some?
  {
    var steps := ScanSteps(ci, sink, fields);
    LookedUpExactly(steps, VisitedCount(steps));
    forall j: nat | j < VisitedCount(steps)
      ensures steps[j].Skip? <==> sink.ScanIndex(j).None?
    {
      FieldStepCases(ci, sink.ScanIndex(j), fields[j]);
    }
  }

  /** Every slot `Scan` fills before it stops holds what the registry's plan for that
      field's OID and destination decodes from the field's bytes; slots of skipped fields,
      of the failing field and of fields after it keep their old contents. */
  lemma ScanStoresDecodedValues(ci: ConnInfo, sink: CompositeIndexScanner, fields: seq<Field>, before: seq<Option<Value>>, j: nat)
    requires j < |before|
    ensures var steps := ScanSteps(ci, sink, fields);
            var after := SlotsAfter(steps, FirstFail(steps), before);
            (j < FirstFail(steps) && sink.ScanIndex(j).Some? ==>
               after[j].Some? &&
               ci.planScan(fields[j].oid, BinaryFormatCode, sink.ScanIndex(j).value).Some? &&
               ci.planScan(fields[j].oid, BinaryFormatCode, sink.ScanIndex(j).value).value(fields[j].bytes) == Ok(after[j].value)) &&
            (j >= FirstFail(steps) || sink.ScanIndex(j).None? ==> after[j] == before[j])
  {
    var steps := ScanSteps(ci, sink, fields);
    if j < FirstFail(steps) {
      FieldStepCases(ci, sink.ScanIndex(j), fields[j]);
    }
  }

  method Scan(plan: ScanPlan, layout: Layout, src: Option<seq<byte>>, target: CompositeIndexScanner)
    returns (err: Option<Error>, ghost lookups: seq<nat>)
    requires target.Valid()
    modifies target, target.values
    ensures err == ScanOutcome(plan.ci, layout, src, target)
    ensures target.scannedNull == (old(target.scannedNull) || src.None?)
    ensures var steps := ScanStepsFor(plan.ci, layout, src, target);
            target.values[..] == SlotsAfter(steps, FirstFail(steps), old(target.values[..]))
    ensures var steps := ScanStepsFor(plan.ci, layout, src, target);
            lookups == LookedUp(steps, VisitedCount(steps))
  {
    if src.None? {
      err := target.ScanNull();
      lookups := [];
      return;
    }
    var scanner := new CompositeBinaryScanner(layout(src.value));
    err, lookups := ScanFieldsInto(plan.ci, scanner, target);
  }

  /** The loop of `Scan`: field `i` in wire order goes to the sink's destination for
      index `i`; a field without one is skipped without a lookup; the first field whose
      lookup or plan fails ends the loop with that error; otherwise the scanner's own
      terminal error is the result. */
  method ScanFieldsInto(ci: ConnInfo, scanner: CompositeBinaryScanner, target: CompositeIndexScanner)
    returns (err: Option<Error>, ghost lookups: seq<nat>)
    requires scanner.Valid() && scanner.rp == 0 && target.Valid()
    modifies scanner, target.values
    ensures var steps := ScanSteps(ci, target, scanner.fields);
            err == FieldsOutcome(steps, scanner.err) &&
            target.values[..] == SlotsAfter(steps, FirstFail(steps), old(target.values[..])) &&
            lookups == LookedUp(steps, VisitedCount(steps))
  {
    ghost var steps := ScanSteps(ci, target, scanner.fields);
    ghost var before := target.values[..];
    lookups := [];
    SlotsAfterNone(steps, before);
    var i := 0;
    var more := scanner.Next();
    while more
      invariant scanner.Valid() && i <= |scanner.fields|
      invariant more ==> i < |scanner.fields| && scanner.rp == i + 1
      invariant !more ==> i == |scanner.fields| == scanner.rp
      invariant forall j :: 0 <= j < i ==> !steps[j].Fail?
      invariant target.values[..] == SlotsAfter(steps, i, before)
      invariant lookups == LookedUp(steps, i)
      decreases |scanner.fields| - i
    {
      var fieldTarget := target.ScanIndex(i);
      assert steps[i] == FieldStep(ci, fieldTarget, scanner.fields[i]);
      SlotsAfterStep(steps, i, before);
      if fieldTarget.Some? {
        lookups := lookups + [i];
        var r := RunFieldPlan(ci, scanner, fieldTarget.value);
        if r.Err? {
          StopsAt(steps, i);
          err := Some(r.error);
          return;
        }
        target.values[i] := Some(r.value);
      }
      i := i + 1;
      more := scanner.Next();
    }
    RunsThrough(steps);
    err := scanner.Err();
  }

  // ---------------------------------------------------------------------------
  // Decoding without a destination shape

  function DecodeDatabaseSQLValue(ci: ConnInfo, oid: Oid, format: FormatCode, src: Option<seq<byte>>): (r: Result<Value, Error>)
    ensures r.Ok? <==> src.None?
    ensures r.Ok? ==> r.value == Nil
    ensures r.Err? ==> r.error == NotImplemented
  {
    if src.None? then Ok(Nil) else Err(NotImplemented)
  }

  /** Field `f` decodes to `v` through the plan the registry gives for an empty interface. */
  ghost predicate DecodedBy(ci: ConnInfo, f: Field, v: Value)
  {
    var p := ci.planScan(f.oid, BinaryFormatCode, InterfacePointer);
    p.Some? && p.value(f.bytes) == Ok(v)
  }

  /** What a binary decode of `stream` must return: the loop's error, or else a slice of
      `fieldCount` values holding, in wire order, each field's decoded value (nil past the
      last field yielded). */
  ghost predicate BinaryDecodeResult(ci: ConnInfo, stream: FieldStream, r: Result<Value, Error>)
  {
    var outcome := FieldsOutcome(DecodeSteps(ci, stream.fields), stream.err);
    match r
    case Err(e) => outcome == Some(e)
    case Ok(v) =>
      outcome == None && v.Values? && |stream.fields| <= |v.items| == stream.fieldCount &&
      (forall i :: 0 <= i < |stream.fields| ==> DecodedBy(ci, stream.fields[i], v.items[i])) &&
      (forall i :: |stream.fields| <= i < |v.items| ==> v.items[i] == Nil)
  }

  /** A field whose step stores `v` for an empty-interface destination decodes to `v`. */
  lemma StoredIsDecoded(ci: ConnInfo, f: Field, v: Value)
    requires FieldStep(ci, Some(InterfacePointer), f) == Store(v)
    ensures DecodedBy(ci, f, v)
  {
  }

  /** The binary branch of `DecodeValue`: a slice of `FieldCount()` nils, filled in wire
      order with each field's decoded value; the first failing field, or else the
      scanner's terminal error, makes the result that error alone. */
  method DecodeFields(ci: ConnInfo, scanner: CompositeBinaryScanner) returns (r: Result<Value, Error>)
    requires scanner.Valid() && scanner.rp == 0
    requires FirstFail(DecodeSteps(ci, scanner.fields)) <= scanner.fieldCount
    modifies scanner
    ensures BinaryDecodeResult(ci, FieldStream(scanner.fieldCount, scanner.fields, scanner.err), r)
  {
    var values := new Value[scanner.FieldCount()](_ => Nil);
    ghost var steps := DecodeSteps(ci, scanner.fields);
    var i := 0;
    var more := scanner.Next();
    while more
      invariant scanner.Valid() && i <= |scanner.fields| && values.Length == scanner.fieldCount
      invariant i <= FirstFail(steps)
      invariant more ==> i < |scanner.fields| && scanner.rp == i + 1
      invariant !more ==> i == |scanner.fields| == scanner.rp
      invariant forall j :: 0 <= j < i ==> !steps[j].Fail? && DecodedBy(ci, scanner.fields[j], values[j])
      invariant forall j :: i <= j < values.Length ==> values[j] == Nil
      decreases |scanner.fields| - i
    {
      assert steps[i] == FieldStep(ci, Some(InterfacePointer), scanner.fields[i]);
      var res := RunFieldPlan(ci, scanner, InterfacePointer);
      if res.Err? {
        FirstFailAt(steps, i);
        return Err(res.error);
      }
      StoredIsDecoded(ci, scanner.fields[i], res.value);
      values[i] := res.value;
      i := i + 1;
      more := scanner.Next();
    }
    FirstFailAt(steps, i);
    var e := scanner.Err();
    if e.Some? {
      return Err(e.value);
    }
    r := Ok(Values(values[..]));
  }

  method DecodeValue(ci: ConnInfo, layout: Layout, oid: Oid, format: FormatCode, src: Option<seq<byte>>)
    returns (r: Result<Value, Error>)
    requires src.Some? && format == BinaryFormatCode ==>
               FirstFail(DecodeSteps(ci, layout(src.value).fields)) <= layout(src.value).fieldCount
    ensures src.None? ==> r == Ok(Nil)
    ensures src.Some? && format == TextFormatCode ==> r == Ok(Str(src.value))
    ensures src.Some? && format != TextFormatCode && format != BinaryFormatCode ==>
              r == Err(UnknownFormatCode(format))
    ensures src.Some? && format == BinaryFormatCode ==> BinaryDecodeResult(ci, layout(src.value), r)
  {
    if src.None? {
      return Ok(Nil);
    }

    if format == TextFormatCode {
      r := Ok(Str(src.value));
    } else if format == BinaryFormatCode {
      var scanner := new CompositeBinaryScanner(layout(src.value));
      r := DecodeFields(ci, scanner);
    } else {
      r := Err(UnknownFormatCode(format));
    }
  }
}
