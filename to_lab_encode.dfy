/**
 * The outbound transcoder of the Telemetry Output task (TO_LAB): a native
 * software-bus telemetry message becomes wire-format bytes in the static
 * NetworkBuffer.  A topic with a schema is packed whole through the schema; a
 * topic without one gets its header packed through the TelemetryHeader schema
 * and its payload copied verbatim when passthrough is allowed, and is
 * rejected otherwise.  Whatever happens, the caller gets the NetworkBuffer and
 * the number of octets the encoding produced.
 *
 * As on the inbound side, each step is a function on values and a method on
 * the buffers proved to compute it.
 */
module ToLabEncode {
  import opened Cfe
  import opened SizeAccounting
  import opened Bytes
  import opened EdsRegistry

  /** The status of an encode step, the output buffer's bytes after it, and the running ProcessedSize. */
  datatype Outbound = Outbound(Status: Status, Out: seq<bv8>, Processed: SizeInfo)

  /**
   * The finalize step shared by both encode paths: it runs only after the
   * earlier steps succeeded, and a finalize failure is a validation failure.
   * id is the type id the pack step left behind.
   */
  function FinalizeStep(db: DataTypeDb, id: TypeId, source: seq<bv8>, o: Outbound): (r: Outbound)
    requires Valid(db)
    ensures |r.Out| == |o.Out| && r.Processed == o.Processed
    ensures o.Status != Success ==> r == o
    ensures o.Status == Success ==>
              (r.Status == Success <==> db.FinalizePacked(id, source, o.Out, o.Processed).Ok?) &&
              (r.Status != Success ==> r == o.(Status := ValidationFailure)) &&
              (r.Status == Success ==> r.Out == db.FinalizePacked(id, source, o.Out, o.Processed).value)
  {
    if o.Status != Success then o
    else
      match db.FinalizePacked(id, source, o.Out, o.Processed)
      case Err => o.(Status := ValidationFailure)
      case Ok(d) => o.(Out := d)
  }

  /** The type id a pack call leaves in EdsId: the one it refined to, or the one passed in when it fails. */
  function PackedId(db: DataTypeDb, id: TypeId, out: seq<bv8>, source: seq<bv8>, max: SizeInfo, processed: SizeInfo): TypeId
  {
    match db.PackPartial(id, out, source, max, processed)
    case Err => id
    case Ok(c) => c.Id
  }

  // ---------------------------------------------------------------------
  // TO_LAB_EncodeOutputPayload
  // ---------------------------------------------------------------------

  /** Lines 63-78: find the telemetry argument type of the parent interface and pack the whole message with it. */
  function EncodeStage(db: DataTypeDb, out: seq<bv8>, parent: IntfId, source: seq<bv8>, max: SizeInfo,
                       processed: SizeInfo): (r: Outbound)
    requires Valid(db)
    ensures r.Status == Success || r.Status == ExternalResourceFail
    ensures |r.Out| == |out|
    ensures r.Status == ExternalResourceFail ==> r.Out == out && r.Processed == processed
    ensures r.Status == Success <==>
              db.FindArgumentType(Telemetry, parent).Ok? &&
              db.PackPartial(db.FindArgumentType(Telemetry, parent).value, out, source, max, processed).Ok?
    ensures r.Status == Success ==> Within(r.Processed, max)
  {
    match db.FindArgumentType(Telemetry, parent)
    case Err => Outbound(ExternalResourceFail, out, processed)
    case Ok(id) =>
      match db.PackPartial(id, out, source, max, processed)
      case Err => Outbound(ExternalResourceFail, out, processed)
      case Ok(c) => Outbound(Success, c.Dest, c.Processed)
  }

  /** The type id the schema encode finalizes with. */
  function EncodeId(db: DataTypeDb, out: seq<bv8>, parent: IntfId, source: seq<bv8>, max: SizeInfo, processed: SizeInfo): TypeId
    requires db.FindArgumentType(Telemetry, parent).Ok?
  {
    PackedId(db, db.FindArgumentType(Telemetry, parent).value, out, source, max, processed)
  }

  /** TO_LAB_EncodeOutputPayload: the schema encode. */
  function EncodePayload(db: DataTypeDb, out: seq<bv8>, parent: IntfId, source: seq<bv8>, max: SizeInfo,
                         processed: SizeInfo): (r: Outbound)
    requires Valid(db)
    ensures r.Status in {Success, ExternalResourceFail, ValidationFailure}
    ensures |r.Out| == |out|
    ensures r.Status == ExternalResourceFail ==> r.Out == out && r.Processed == processed
    ensures r.Status != ExternalResourceFail ==> Within(r.Processed, max)
  {
    var staged := EncodeStage(db, out, parent, source, max, processed);
    if staged.Status != Success then staged
    else FinalizeStep(db, EncodeId(db, out, parent, source, max, processed), source, staged)
  }

  /**
   * Finalize runs only after the argument type lookup and the pack succeeded:
   * when either fails the result is an external resource failure with nothing
   * written, whatever the finalizer would have done.
   */
  lemma EncodeFinalizesOnlyAfterPack(db: DataTypeDb, finalize: (TypeId, seq<bv8>, seq<bv8>, SizeInfo) -> Result<seq<bv8>>,
                                     out: seq<bv8>, parent: IntfId, source: seq<bv8>, max: SizeInfo, processed: SizeInfo)
    requires Valid(db) && Valid(db.(FinalizePacked := finalize))
    requires db.FindArgumentType(Telemetry, parent).Err? ||
             db.PackPartial(db.FindArgumentType(Telemetry, parent).value, out, source, max, processed).Err?
    ensures EncodePayload(db, out, parent, source, max, processed) == Outbound(ExternalResourceFail, out, processed)
    ensures EncodePayload(db.(FinalizePacked := finalize), out, parent, source, max, processed)
              == EncodePayload(db, out, parent, source, max, processed)
  {
  }

  /** After a successful pack the finalizer's verdict decides between success and validation failure. */
  lemma EncodeVerdict(db: DataTypeDb, out: seq<bv8>, parent: IntfId, source: seq<bv8>, max: SizeInfo, processed: SizeInfo)
    requires Valid(db)
    requires db.FindArgumentType(Telemetry, parent).Ok?
    requires db.PackPartial(db.FindArgumentType(Telemetry, parent).value, out, source, max, processed).Ok?
    ensures var c := db.PackPartial(db.FindArgumentType(Telemetry, parent).value, out, source, max, processed).value;
            var f := db.FinalizePacked(c.Id, source, c.Dest, c.Processed);
            EncodePayload(db, out, parent, source, max, processed) ==
              if f.Err? then Outbound(ValidationFailure, c.Dest, c.Processed)
              else Outbound(Success, f.value, c.Processed)
  {
  }

  /** TO_LAB_EncodeOutputPayload on the buffers. */
  method EncodeOutputPayload(db: DataTypeDb, dest: array<bv8>, parent: IntfId, source: array<bv8>, max: SizeInfo,
                             processed: SizeInfo)
    returns (status: Status, processedOut: SizeInfo)
    requires Valid(db) && dest != source
    modifies dest
    ensures EncodePayload(db, old(dest[..]), parent, old(source[..]), max, processed)
              == Outbound(status, dest[..], processedOut)
  {
    ghost var out0 := dest[..];
    processedOut := processed;
    status := Success;
    var edsId: TypeId;
    var found := db.FindArgumentType(Telemetry, parent);
    if found.Err? {
      status := ExternalResourceFail;
    } else {
      var packed := db.PackPartial(found.value, dest[..], source[..], max, processed);
      if packed.Err? {
        status := ExternalResourceFail;
      } else {
        Store(dest, packed.value.Dest);
        processedOut := packed.value.Processed;
        edsId := packed.value.Id;
      }
    }
    if status == Success {
      assert edsId == EncodeId(db, out0, parent, source[..], max, processed);
      var finalized := db.FinalizePacked(edsId, source[..], dest[..], processedOut);
      if finalized.Err? {
        status := ValidationFailure;
      } else {
        Store(dest, finalized.value);
      }
    }
  }

  // ---------------------------------------------------------------------
  // TO_LAB_PassthruOutputPayload
  // ---------------------------------------------------------------------

  /**
   * Lines 117-156: pack only the header, with the TelemetryHeader schema; if
   * the payload fits, copy it verbatim after the packed header and account for
   * it.  The payload is the source bytes from the end of the native header
   * (Processed.Bytes) to the end of the message (Max.Bytes); it must fit
   * between the end of the packed header (BITS_TO_OCTETS(Processed.Bits)) and
   * the end of the output (BITS_TO_OCTETS(Max.Bits)).  The copy is done only
   * when Max.Bytes exceeds the packed header size, as in the C: that test
   * compares a native length with a wire length.
   */
  function PassthruStage(db: DataTypeDb, out: seq<bv8>, source: seq<bv8>, max: SizeInfo, processed: SizeInfo): (r: Outbound)
    requires Valid(db)
    requires BitsToOctets(max.Bits) <= |out| && max.Bytes <= |source|
    ensures r.Status in {Success, ExternalResourceFail, MsgTooBig}
    ensures |r.Out| == |out|
    ensures r.Status == ExternalResourceFail <==> db.PackPartial(TelemetryHeaderType, out, source, max, processed).Err?
    ensures r.Status == ExternalResourceFail ==> r.Out == out && r.Processed == processed
    ensures r.Status != ExternalResourceFail ==>
              var c := db.PackPartial(TelemetryHeaderType, out, source, max, processed).value;
              var header := BitsToOctets(c.Processed.Bits);
              var payload := max.Bytes - c.Processed.Bytes;
              header <= BitsToOctets(max.Bits) &&
              (r.Status == MsgTooBig <==> BitsToOctets(max.Bits) - header < payload) &&
              (r.Status == MsgTooBig ==> r.Out == c.Dest && r.Processed == c.Processed) &&
              (r.Status == Success ==>
                 header + payload <= |out| &&
                 r.Out == (if max.Bytes > header then Overwrite(c.Dest, header, source[c.Processed.Bytes..max.Bytes]) else c.Dest) &&
                 r.Processed == SizeInfo(OctetsToBits(payload + header), max.Bytes))
  {
    match db.PackPartial(TelemetryHeaderType, out, source, max, processed)
    case Err => Outbound(ExternalResourceFail, out, processed)
    case Ok(c) =>
      BitsToOctetsMonotone(c.Processed.Bits, max.Bits);
      var header := BitsToOctets(c.Processed.Bits);
      if SizeSub(BitsToOctets(max.Bits), header) < SizeSub(max.Bytes, c.Processed.Bytes) then
        Outbound(MsgTooBig, c.Dest, c.Processed)
      else
        var copied := if max.Bytes > header then Overwrite(c.Dest, header, source[c.Processed.Bytes..max.Bytes]) else c.Dest;
        var total := SizeAdd(SizeSub(max.Bytes, c.Processed.Bytes), header);
        Outbound(Success, copied, SizeInfo(OctetsToBits(total), max.Bytes))
  }

  /** TO_LAB_PassthruOutputPayload: the header pack and copy, then the finalize step with the id the pack left. */
  function PassthruOutput(db: DataTypeDb, out: seq<bv8>, source: seq<bv8>, max: SizeInfo, processed: SizeInfo): (r: Outbound)
    requires Valid(db)
    requires BitsToOctets(max.Bits) <= |out| && max.Bytes <= |source|
    ensures r.Status in {Success, ExternalResourceFail, MsgTooBig, ValidationFailure}
    ensures |r.Out| == |out|
  {
    FinalizeStep(db, PackedId(db, TelemetryHeaderType, out, source, max, processed), source,
                 PassthruStage(db, out, source, max, processed))
  }

  /**
   * A header pack failure is an external resource failure that copies
   * nothing and never finalizes: the result does not depend on the finalizer.
   */
  lemma PassthruPackFailure(db: DataTypeDb, finalize: (TypeId, seq<bv8>, seq<bv8>, SizeInfo) -> Result<seq<bv8>>,
                            out: seq<bv8>, source: seq<bv8>, max: SizeInfo, processed: SizeInfo)
    requires Valid(db) && Valid(db.(FinalizePacked := finalize))
    requires BitsToOctets(max.Bits) <= |out| && max.Bytes <= |source|
    requires db.PackPartial(TelemetryHeaderType, out, source, max, processed).Err?
    ensures PassthruOutput(db, out, source, max, processed) == Outbound(ExternalResourceFail, out, processed)
    ensures PassthruOutput(db.(FinalizePacked := finalize), out, source, max, processed)
              == PassthruOutput(db, out, source, max, processed)
  {
  }

  /**
   * A payload that does not fit is MsgTooBig, with the ProcessedSize the
   * header pack left (the bookkeeping is not done) and no finalize.
   */
  lemma PassthruTooBig(db: DataTypeDb, finalize: (TypeId, seq<bv8>, seq<bv8>, SizeInfo) -> Result<seq<bv8>>,
                       out: seq<bv8>, source: seq<bv8>, max: SizeInfo, processed: SizeInfo)
    requires Valid(db) && Valid(db.(FinalizePacked := finalize))
    requires BitsToOctets(max.Bits) <= |out| && max.Bytes <= |source|
    requires db.PackPartial(TelemetryHeaderType, out, source, max, processed).Ok?
    requires var c := db.PackPartial(TelemetryHeaderType, out, source, max, processed).value;
             BitsToOctets(max.Bits) - BitsToOctets(c.Processed.Bits) < max.Bytes - c.Processed.Bytes
    ensures var c := db.PackPartial(TelemetryHeaderType, out, source, max, processed).value;
            PassthruOutput(db, out, source, max, processed) == Outbound(MsgTooBig, c.Dest, c.Processed)
    ensures PassthruOutput(db.(FinalizePacked := finalize), out, source, max, processed)
              == PassthruOutput(db, out, source, max, processed)
  {
  }

  /**
   * The buffer handed to the finalizer after a successful header pack holds
   * the packed header and, when the copy condition holds, the payload
   * verbatim right after it; every other byte is as the header pack left it.
   */
  lemma PassthruCopiesPayload(db: DataTypeDb, out: seq<bv8>, source: seq<bv8>, max: SizeInfo, processed: SizeInfo)
    requires Valid(db)
    requires BitsToOctets(max.Bits) <= |out| && max.Bytes <= |source|
    requires PassthruStage(db, out, source, max, processed).Status == Success
    ensures var c := db.PackPartial(TelemetryHeaderType, out, source, max, processed).value;
            var header := BitsToOctets(c.Processed.Bits);
            var r := PassthruStage(db, out, source, max, processed);
            (max.Bytes > header ==>
               (forall i :: c.Processed.Bytes <= i < max.Bytes ==> r.Out[header + i - c.Processed.Bytes] == source[i]) &&
               (forall i :: 0 <= i < |out| && !(header <= i < header + max.Bytes - c.Processed.Bytes) ==> r.Out[i] == c.Dest[i])) &&
            (max.Bytes <= header ==> r.Out == c.Dest)
  {
    var c := db.PackPartial(TelemetryHeaderType, out, source, max, processed).value;
    var header := BitsToOctets(c.Processed.Bits);
    var r := PassthruStage(db, out, source, max, processed);
    if max.Bytes > header {
      var payload := source[c.Processed.Bytes..max.Bytes];
      assert r.Out == Overwrite(c.Dest, header, payload);
      forall i | c.Processed.Bytes <= i < max.Bytes
        ensures r.Out[header + i - c.Processed.Bytes] == source[i]
      {
        assert payload[i - c.Processed.Bytes] == source[i];
      }
    }
  }

  /**
   * The copy condition as written: when the native header is shorter than the
   * packed header and the message ends no later than the packed header, the
   * payload bytes are not copied, yet the bit count still claims them.
   */
  lemma PassthruSkipsShortPayload(db: DataTypeDb, out: seq<bv8>, source: seq<bv8>, max: SizeInfo, processed: SizeInfo)
    requires Valid(db)
    requires BitsToOctets(max.Bits) <= |out| && max.Bytes <= |source| && |out| < SIZE_MODULUS / 8
    requires PassthruStage(db, out, source, max, processed).Status == Success
    requires var c := db.PackPartial(TelemetryHeaderType, out, source, max, processed).value;
             c.Processed.Bytes < max.Bytes <= BitsToOctets(c.Processed.Bits)
    ensures var c := db.PackPartial(TelemetryHeaderType, out, source, max, processed).value;
            var r := PassthruStage(db, out, source, max, processed);
            r.Out == c.Dest &&
            r.Processed.Bits == 8 * (BitsToOctets(c.Processed.Bits) + (max.Bytes - c.Processed.Bytes)) &&
            r.Processed.Bits > 8 * BitsToOctets(c.Processed.Bits)
  {
  }

  /**
   * After a successful passthrough the output is the packed header followed
   * by the payload: its octet count is the packed header size plus the number
   * of payload bytes, and the bytes consumed are the whole source message.
   */
  lemma PassthruOutputSize(db: DataTypeDb, out: seq<bv8>, source: seq<bv8>, max: SizeInfo, processed: SizeInfo)
    requires Valid(db)
    requires BitsToOctets(max.Bits) <= |out| && max.Bytes <= |source| && |out| < SIZE_MODULUS / 8
    requires PassthruOutput(db, out, source, max, processed).Status == Success
    ensures var c := db.PackPartial(TelemetryHeaderType, out, source, max, processed).value;
            var r := PassthruOutput(db, out, source, max, processed);
            BitsToOctets(r.Processed.Bits) == BitsToOctets(c.Processed.Bits) + (max.Bytes - c.Processed.Bytes) &&
            BitsToOctets(r.Processed.Bits) <= |out| &&
            r.Processed.Bytes == max.Bytes
  {
    var c := db.PackPartial(TelemetryHeaderType, out, source, max, processed).value;
    var s := PassthruStage(db, out, source, max, processed);
    var n := BitsToOctets(c.Processed.Bits) + (max.Bytes - c.Processed.Bytes);
    assert s.Processed == SizeInfo(OctetsToBits(n), max.Bytes);
    BitsOctetsBits(n);
  }

  /** TO_LAB_PassthruOutputPayload on the buffers. */
  method PassthruOutputPayload(db: DataTypeDb, dest: array<bv8>, source: array<bv8>, max: SizeInfo, processed: SizeInfo)
    returns (status: Status, processedOut: SizeInfo)
    requires Valid(db) && dest != source
    requires BitsToOctets(max.Bits) <= dest.Length && max.Bytes <= source.Length
    modifies dest
    ensures PassthruOutput(db, old(dest[..]), old(source[..]), max, processed) == Outbound(status, dest[..], processedOut)
  {
    ghost var out0 := dest[..];
    processedOut := processed;
    status := Success;
    var edsId := TelemetryHeaderType;
    var packed := db.PackPartial(edsId, dest[..], source[..], max, processed);
    if packed.Err? {
      status := ExternalResourceFail;
    } else {
      Store(dest, packed.value.Dest);
      processedOut := packed.value.Processed;
      edsId := packed.value.Id;
      BitsToOctetsMonotone(processedOut.Bits, max.Bits);
      var headerSize := BitsToOctets(processedOut.Bits);
      var totalSize := max.Bytes;
      if SizeSub(BitsToOctets(max.Bits), headerSize) < SizeSub(max.Bytes, processedOut.Bytes) {
        status := MsgTooBig;
      } else {
        if totalSize > headerSize {
          CopyBytes(dest, headerSize, source, processedOut.Bytes, max.Bytes - processedOut.Bytes);
        }
        totalSize := SizeSub(totalSize, processedOut.Bytes);
        totalSize := SizeAdd(totalSize, headerSize);
        processedOut := SizeInfo(OctetsToBits(totalSize), max.Bytes);
      }
    }
    assert PassthruStage(db, out0, source[..], max, processed) == Outbound(status, dest[..], processedOut);
    if status == Success {
      var finalized := db.FinalizePacked(edsId, source[..], dest[..], processedOut);
      if finalized.Err? {
        status := ValidationFailure;
      } else {
        Store(dest, finalized.value);
      }
    }
  }

  // ---------------------------------------------------------------------
  // TO_LAB_EncodeOutputMessage
  // ---------------------------------------------------------------------

  /**
   * MaxSize: the capacity of the NetworkBuffer in bits and the source message
   * length, when CFE_MSG_GetSize succeeds; the zeroed SizeInfo otherwise.
   */
  function OutputMaxSize(getSize: Result<SizeT>, capacity: SizeT): (max: SizeInfo)
    ensures getSize.Ok? && capacity < SIZE_MODULUS / 8 ==> max == SizeInfo(8 * capacity, getSize.value)
    ensures getSize.Err? ==> max == ZeroSize
    ensures BitsToOctets(max.Bits) <= capacity
  {
    OctetsBitsOctets(capacity);
    if getSize.Ok? then SizeInfo(OctetsToBits(capacity), getSize.value) else ZeroSize
  }

  /**
   * TO_LAB_EncodeOutputMessage: derive MaxSize, resolve the publisher topic
   * from the source header, then take the schema, passthrough or reject
   * branch, all starting from a zeroed ProcessedSize.  The status of
   * CFE_MSG_GetSize is overwritten by the branch taken.  network is the
   * NetworkBuffer's contents before the call.
   */
  function EncodeMessage(allowPassthru: bool, db: DataTypeDb, ml: MissionLib, network: seq<bv8>, source: seq<bv8>,
                         getSize: Result<SizeT>): (r: Outbound)
    requires Valid(db) && |network| < SIZE_MODULUS
    requires getSize.Ok? ==> getSize.value <= |source|
    ensures |r.Out| == |network|
    ensures r.Status != BufAllocErr && r.Status != WrongMsgLength
  {
    var max := OutputMaxSize(getSize, |network|);
    match ml.GetTopicInfo(ml.PublisherTopic(source))
    case Err => Outbound(ExternalResourceFail, network, ZeroSize)
    case Ok(Mapped(parent)) => EncodePayload(db, network, parent, source, max, ZeroSize)
    case Ok(Unmapped) =>
      if allowPassthru then PassthruOutput(db, network, source, max, ZeroSize)
      else Outbound(ValidationFailure, network, ZeroSize)
  }

  /** *DestSizeOut: the octets the encoding produced, on every path. */
  function DestSize(r: Outbound): (n: SizeT)
    ensures 8 * n - 7 <= r.Processed.Bits <= 8 * n
  {
    BitsToOctets(r.Processed.Bits)
  }

  /**
   * Topic dispatch: a lookup error is an external resource failure, a schema
   * takes the schema encode, no schema takes the passthrough exactly when it
   * is allowed and is a validation failure otherwise.  The two failures that
   * happen before any encoding report zero octets.
   */
  lemma EncodeDispatch(allowPassthru: bool, db: DataTypeDb, ml: MissionLib, network: seq<bv8>, source: seq<bv8>,
                       getSize: Result<SizeT>)
    requires Valid(db) && |network| < SIZE_MODULUS
    requires getSize.Ok? ==> getSize.value <= |source|
    ensures var topic := ml.GetTopicInfo(ml.PublisherTopic(source));
            var max := OutputMaxSize(getSize, |network|);
            var r := EncodeMessage(allowPassthru, db, ml, network, source, getSize);
            (topic.Err? ==> r == Outbound(ExternalResourceFail, network, ZeroSize) && DestSize(r) == 0) &&
            (topic.Ok? && topic.value.Mapped? ==>
               r == EncodePayload(db, network, topic.value.ParentIntfId, source, max, ZeroSize)) &&
            (topic.Ok? && topic.value.Unmapped? && allowPassthru ==>
               r == PassthruOutput(db, network, source, max, ZeroSize)) &&
            (topic.Ok? && topic.value.Unmapped? && !allowPassthru ==>
               r == Outbound(ValidationFailure, network, ZeroSize) && DestSize(r) == 0)
  {
  }

  /**
   * A CFE_MSG_GetSize failure does not decide the result: on a passthrough
   * topic whose header pack and finalize succeed on the zero MaxSize, the
   * encode reports success, with zero octets produced.
   */
  lemma GetSizeFailureSwallowed(db: DataTypeDb, ml: MissionLib, network: seq<bv8>, source: seq<bv8>)
    requires Valid(db) && |network| < SIZE_MODULUS
    requires ml.GetTopicInfo(ml.PublisherTopic(source)) == Ok(Unmapped)
    requires db.PackPartial(TelemetryHeaderType, network, source, ZeroSize, ZeroSize).Ok?
    requires var c := db.PackPartial(TelemetryHeaderType, network, source, ZeroSize, ZeroSize).value;
             db.FinalizePacked(c.Id, source, c.Dest, ZeroSize).Ok?
    ensures EncodeMessage(true, db, ml, network, source, Err).Status == Success
    ensures DestSize(EncodeMessage(true, db, ml, network, source, Err)) == 0
  {
    var c := db.PackPartial(TelemetryHeaderType, network, source, ZeroSize, ZeroSize).value;
    assert c.Processed == ZeroSize;
    assert PassthruStage(db, network, source, ZeroSize, ZeroSize) == Outbound(Success, c.Dest, ZeroSize);
  }

  /** The static NetworkBuffer and the configuration of the Telemetry Output task. */
  class TelemetryOutput {
    /** The function-static NetworkBuffer (EdsPackedBuffer_CFE_HDR_TelemetryHeader_t) every encoding is written to. */
    const NetworkBuffer: array<bv8>
    /** TO_LAB_Global.AllowPassthru */
    var AllowPassthru: bool

    constructor (networkBufferSize: nat, allowPassthru: bool)
      ensures fresh(NetworkBuffer) && NetworkBuffer.Length == networkBufferSize
      ensures AllowPassthru == allowPassthru
    {
      NetworkBuffer := new bv8[networkBufferSize];
      AllowPassthru := allowPassthru;
    }

    /**
     * TO_LAB_EncodeOutputMessage.  getSize is the outcome of CFE_MSG_GetSize on
     * the source message.  On every path the caller gets the NetworkBuffer
     * and the octet count of what was encoded into it.
     */
    method EncodeOutputMessage(db: DataTypeDb, ml: MissionLib, source: array<bv8>, getSize: Result<SizeT>)
      returns (status: Status, destBuffer: array<bv8>, destSize: SizeT)
      requires Valid(db) && source != NetworkBuffer && NetworkBuffer.Length < SIZE_MODULUS
      requires getSize.Ok? ==> getSize.value <= source.Length
      modifies NetworkBuffer
      ensures destBuffer == NetworkBuffer
      ensures var r := EncodeMessage(AllowPassthru, db, ml, old(NetworkBuffer[..]), source[..], getSize);
              status == r.Status && NetworkBuffer[..] == r.Out && destSize == DestSize(r)
    {
      var max := ZeroSize;
      var processed := ZeroSize;
      if getSize.Ok? {
        max := SizeInfo(OctetsToBits(NetworkBuffer.Length), getSize.value);
      }
      OctetsBitsOctets(NetworkBuffer.Length);
      var topic := ml.GetTopicInfo(ml.PublisherTopic(source[..]));
      if topic.Err? {
        status := ExternalResourceFail;
      } else if topic.value.Mapped? {
        status, processed := EncodeOutputPayload(db, NetworkBuffer, topic.value.ParentIntfId, source, max, processed);
      } else if AllowPassthru {
        status, processed := PassthruOutputPayload(db, NetworkBuffer, source, max, processed);
      } else {
        status := ValidationFailure;
      }
      destSize := BitsToOctets(processed.Bits);
      destBuffer := NetworkBuffer;
    }
  }
}
