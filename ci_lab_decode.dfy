/**
 * The inbound transcoder of the Command Ingest task (CI_LAB): a raw
 * wire-format command in the input buffer becomes a native software-bus
 * command buffer.  The header is always decoded through the schema; the
 * payload is decoded through the schema when the topic has one, copied
 * verbatim when it has none and passthrough is allowed, and rejected
 * otherwise.  A buffer that fails any step goes back to the pool.
 *
 * Each step is a function on values (the specification) and a method on the
 * buffers (the model of the C), and the method is proved to compute the
 * function.
 */
module CiLabDecode {
  import opened Cfe
  import opened SizeAccounting
  import opened Bytes
  import opened EdsRegistry
  import opened SoftwareBus

  /**
   * What the decode steps work on: the native buffer's bytes, its message
   * length entry and the running ProcessedSize.  The length entry lives in the
   * native header; it is kept apart from the bytes so that the steps that
   * write it (the header unpack, the verification, CFE_MSG_SetSize) say so.
   */
  datatype Ingest = Ingest(Data: seq<bv8>, Size: SizeT, Processed: SizeInfo)

  /** The status a step returns and the state it leaves. */
  datatype Step = Step(Status: Status, State: Ingest)

  // ---------------------------------------------------------------------
  // CI_LAB_DecodeInputHeader
  // ---------------------------------------------------------------------

  /**
   * Decodes the command header: look up the header type, refuse a packet with
   * fewer bits than a header, then unpack the header, its length entry
   * included, into the native buffer.
   */
  function DecodeHeader(db: DataTypeDb, s: Ingest, source: seq<bv8>, max: SizeInfo): (r: Step)
    requires Valid(db)
    ensures r.Status in {Success, ExternalResourceFail, WrongMsgLength, ValidationFailure}
    ensures |r.State.Data| == |s.Data|
    ensures r.Status != Success ==> r.State == s
    ensures r.Status == Success ==> Within(r.State.Processed, max)
  {
    match db.GetTypeInfo(CommandHeaderType)
    case Err => Step(ExternalResourceFail, s)
    case Ok(info) =>
      if max.Bits < info.Size.Bits then Step(WrongMsgLength, s)
      else
        match db.UnpackPartial(CommandHeaderType, s.Data, source, max, s.Processed)
        case Err => Step(ValidationFailure, s)
        case Ok(u) => Step(Success, Ingest(u.Dest, u.Length, u.Processed))
  }

  /** A failed header type lookup is reported before the packet size is looked at. */
  lemma HeaderLookupFailsFirst(db: DataTypeDb, s: Ingest, source: seq<bv8>, max: SizeInfo)
    requires Valid(db) && db.GetTypeInfo(CommandHeaderType).Err?
    ensures DecodeHeader(db, s, source, max) == Step(ExternalResourceFail, s)
  {
  }

  /**
   * The size floor: a packet with fewer bits than a command header gives
   * WrongMsgLength whatever the unpacker would have done, so it is never run.
   */
  lemma HeaderSizeFloor(db: DataTypeDb, unpack: (TypeId, seq<bv8>, seq<bv8>, SizeInfo, SizeInfo) -> Result<Unpacked>,
                        s: Ingest, source: seq<bv8>, max: SizeInfo)
    requires Valid(db) && Valid(db.(UnpackPartial := unpack))
    requires db.GetTypeInfo(CommandHeaderType).Ok?
    requires max.Bits < db.GetTypeInfo(CommandHeaderType).value.Size.Bits
    ensures DecodeHeader(db, s, source, max) == Step(WrongMsgLength, s)
    ensures DecodeHeader(db.(UnpackPartial := unpack), s, source, max) == DecodeHeader(db, s, source, max)
  {
  }

  /** A header the unpacker refuses is a validation failure, not a lookup failure. */
  lemma HeaderUnpackFailure(db: DataTypeDb, s: Ingest, source: seq<bv8>, max: SizeInfo)
    requires Valid(db) && db.GetTypeInfo(CommandHeaderType).Ok?
    requires max.Bits >= db.GetTypeInfo(CommandHeaderType).value.Size.Bits
    requires db.UnpackPartial(CommandHeaderType, s.Data, source, max, s.Processed).Err?
    ensures DecodeHeader(db, s, source, max) == Step(ValidationFailure, s)
  {
  }

  /**
   * The header decodes exactly when all three checks pass, and then holds what
   * the unpacker produced: its bytes, the length entry of the header it wrote,
   * and its ProcessedSize.
   */
  lemma HeaderSuccess(db: DataTypeDb, s: Ingest, source: seq<bv8>, max: SizeInfo)
    requires Valid(db)
    ensures DecodeHeader(db, s, source, max).Status == Success <==>
              db.GetTypeInfo(CommandHeaderType).Ok? &&
              max.Bits >= db.GetTypeInfo(CommandHeaderType).value.Size.Bits &&
              db.UnpackPartial(CommandHeaderType, s.Data, source, max, s.Processed).Ok?
    ensures DecodeHeader(db, s, source, max).Status == Success ==>
              var u := db.UnpackPartial(CommandHeaderType, s.Data, source, max, s.Processed).value;
              DecodeHeader(db, s, source, max).State == Ingest(u.Dest, u.Length, u.Processed)
  {
  }

  /** CI_LAB_DecodeInputHeader on the buffers. */
  method DecodeInputHeader(db: DataTypeDb, buf: MessageBuffer, source: array<bv8>, max: SizeInfo, processed: SizeInfo)
    returns (status: Status, processedOut: SizeInfo)
    requires Valid(db)
    modifies buf.Data, buf`Size
    ensures DecodeHeader(db, Ingest(old(buf.Data[..]), old(buf.Size), processed), old(source[..]), max)
              == Step(status, Ingest(buf.Data[..], buf.Size, processedOut))
  {
    processedOut := processed;
    var info := db.GetTypeInfo(CommandHeaderType);
    if info.Err? {
      status := ExternalResourceFail;
    } else if max.Bits < info.value.Size.Bits {
      status := WrongMsgLength;
    } else {
      var u := db.UnpackPartial(CommandHeaderType, buf.Data[..], source[..], max, processed);
      if u.Err? {
        status := ValidationFailure;
      } else {
        Store(buf.Data, u.value.Dest);
        buf.Size := u.value.Length;
        processedOut := u.value.Processed;
        status := Success;
      }
    }
  }

  // ---------------------------------------------------------------------
  // CI_LAB_DecodeInputPayload
  // ---------------------------------------------------------------------

  /**
   * Decodes the whole command through the schema of its topic: find the one
   * telecommand argument type of the parent interface, unpack the rest of the
   * object (which may refine the type id), then verify it and recompute its
   * length entry.  A failed lookup or unpack is an external resource failure; a
   * failed verification is a validation failure.  On success the length entry
   * is the number of native bytes unpacked, whatever the packet declared.
   */
  function DecodePayload(db: DataTypeDb, s: Ingest, parent: IntfId, source: seq<bv8>, max: SizeInfo): (r: Step)
    requires Valid(db)
    ensures r.Status in {Success, ExternalResourceFail, ValidationFailure}
    ensures |r.State.Data| == |s.Data|
    ensures r.Status == Success ==> r.State.Size == r.State.Processed.Bytes <= max.Bytes
    ensures r.Status == ExternalResourceFail ==> r.State == s
    ensures r.Status != ExternalResourceFail ==> Within(r.State.Processed, max)
  {
    match db.FindArgumentType(Telecommand, parent)
    case Err => Step(ExternalResourceFail, s)
    case Ok(id) =>
      match db.UnpackPartial(id, s.Data, source, max, s.Processed)
      case Err => Step(ExternalResourceFail, s)
      case Ok(u) =>
        var unpacked := Ingest(u.Dest, u.Length, u.Processed);
        match db.VerifyUnpacked(u.Id, u.Dest, source, u.Processed)
        case Err => Step(ValidationFailure, unpacked)
        case Ok(v) => Step(Success, Ingest(v.Dest, v.Length, u.Processed))
  }

  /**
   * Verification runs only when both the argument type lookup and the unpack
   * succeeded: when either fails the result is an external resource failure
   * whatever the verifier would have said.
   */
  lemma PayloadVerifiesOnlyAfterUnpack(db: DataTypeDb, verify: (TypeId, seq<bv8>, seq<bv8>, SizeInfo) -> Result<Verified>,
                                       s: Ingest, parent: IntfId, source: seq<bv8>, max: SizeInfo)
    requires Valid(db) && Valid(db.(VerifyUnpacked := verify))
    requires db.FindArgumentType(Telecommand, parent).Err? ||
             db.UnpackPartial(db.FindArgumentType(Telecommand, parent).value, s.Data, source, max, s.Processed).Err?
    ensures DecodePayload(db, s, parent, source, max) == Step(ExternalResourceFail, s)
    ensures DecodePayload(db.(VerifyUnpacked := verify), s, parent, source, max) == DecodePayload(db, s, parent, source, max)
  {
  }

  /**
   * After a successful unpack the verdict of the verifier decides between
   * success, with the verified bytes and the length entry recomputed to the
   * native bytes unpacked, and validation failure, with the unpacked bytes
   * and the length entry the unpack wrote.
   */
  lemma PayloadVerdict(db: DataTypeDb, s: Ingest, parent: IntfId, source: seq<bv8>, max: SizeInfo)
    requires Valid(db)
    requires db.FindArgumentType(Telecommand, parent).Ok?
    requires db.UnpackPartial(db.FindArgumentType(Telecommand, parent).value, s.Data, source, max, s.Processed).Ok?
    ensures var u := db.UnpackPartial(db.FindArgumentType(Telecommand, parent).value, s.Data, source, max, s.Processed).value;
            var v := db.VerifyUnpacked(u.Id, u.Dest, source, u.Processed);
            DecodePayload(db, s, parent, source, max) ==
              if v.Err? then Step(ValidationFailure, Ingest(u.Dest, u.Length, u.Processed))
              else Step(Success, Ingest(v.value.Dest, u.Processed.Bytes, u.Processed))
  {
  }

  /** CI_LAB_DecodeInputPayload on the buffers. */
  method DecodeInputPayload(db: DataTypeDb, buf: MessageBuffer, parent: IntfId, source: array<bv8>, max: SizeInfo,
                            processed: SizeInfo)
    returns (status: Status, processedOut: SizeInfo)
    requires Valid(db) && source != buf.Data
    modifies buf.Data, buf`Size
    ensures DecodePayload(db, Ingest(old(buf.Data[..]), old(buf.Size), processed), parent, old(source[..]), max)
              == Step(status, Ingest(buf.Data[..], buf.Size, processedOut))
  {
    processedOut := processed;
    status := Success;
    var id := db.FindArgumentType(Telecommand, parent);
    var edsId: TypeId;
    if id.Err? {
      status := ExternalResourceFail;
    } else {
      var u := db.UnpackPartial(id.value, buf.Data[..], source[..], max, processed);
      if u.Err? {
        status := ExternalResourceFail;
      } else {
        Store(buf.Data, u.value.Dest);
        buf.Size := u.value.Length;
        processedOut := u.value.Processed;
        edsId := u.value.Id;
      }
    }
    if status == Success {
      var v := db.VerifyUnpacked(edsId, buf.Data[..], source[..], processedOut);
      if v.Err? {
        status := ValidationFailure;
      } else {
        Store(buf.Data, v.value.Dest);
        buf.Size := v.value.Length;
      }
    }
  }

  // ---------------------------------------------------------------------
  // CI_LAB_PassthruInputPayload
  // ---------------------------------------------------------------------

  /**
   * Copies the payload verbatim after the decoded native header and sets the
   * message length to the native header bytes plus the copied bytes.  The
   * payload is the source bytes from the end of the wire header
   * (BITS_TO_OCTETS(Processed.Bits)) to the end of the packet
   * (BITS_TO_OCTETS(Max.Bits)); it must fit between the end of the native
   * header (Processed.Bytes) and the end of the buffer (Max.Bytes).
   *
   * The size_t subtractions do not wrap: the header unpack never reports more
   * than it was allowed (Within), which the requires carry over.
   */
  function PassthruPayload(api: MsgApi, s: Ingest, source: seq<bv8>, max: SizeInfo): (r: Step)
    requires Within(s.Processed, max)
    requires BitsToOctets(max.Bits) <= |source| && max.Bytes <= |s.Data|
    ensures r.Status in {Success, MsgTooBig, MsgBadArgument}
    ensures r.State.Processed == s.Processed
    ensures var header := BitsToOctets(s.Processed.Bits);
            var total := BitsToOctets(max.Bits);
            header <= total &&
            (r.Status == MsgTooBig <==> total - header > max.Bytes - s.Processed.Bytes) &&
            (r.Status == MsgTooBig ==> r.State == s) &&
            (r.Status != MsgTooBig ==>
               s.Processed.Bytes + (total - header) <= |s.Data| &&
               r.State.Data == Overwrite(s.Data, s.Processed.Bytes, source[header..total])) &&
            (r.Status == Success ==> r.State.Size == total - header + s.Processed.Bytes) &&
            (r.Status != Success ==> r.State.Size == s.Size)
  {
    BitsToOctetsMonotone(s.Processed.Bits, max.Bits);
    var header := BitsToOctets(s.Processed.Bits);
    var total := BitsToOctets(max.Bits);
    if SizeSub(total, header) > SizeSub(max.Bytes, s.Processed.Bytes) then
      Step(MsgTooBig, s)
    else
      var data := if total > header then Overwrite(s.Data, s.Processed.Bytes, source[header..total]) else s.Data;
      var length := SizeAdd(SizeSub(total, header), s.Processed.Bytes);
      var status := SetSizeStatus(api, length);
      OverwriteEmpty(s.Data, s.Processed.Bytes);
      Step(status, s.(Data := data, Size := if status == Success then length else s.Size))
  }

  /** A header-only command copies nothing and gets the length of its native header. */
  lemma PassthruZeroPayload(api: MsgApi, s: Ingest, source: seq<bv8>, max: SizeInfo)
    requires Within(s.Processed, max)
    requires BitsToOctets(max.Bits) <= |source| && max.Bytes <= |s.Data|
    requires BitsToOctets(max.Bits) == BitsToOctets(s.Processed.Bits)
    ensures PassthruPayload(api, s, source, max).Status != MsgTooBig
    ensures PassthruPayload(api, s, source, max).State.Data == s.Data
    ensures api.SetSizeAccepts(s.Processed.Bytes) ==>
              PassthruPayload(api, s, source, max) == Step(Success, s.(Size := s.Processed.Bytes))
  {
    BitsToOctetsMonotone(s.Processed.Bits, max.Bits);
  }

  /** CI_LAB_PassthruInputPayload on the buffers. */
  method PassthruInputPayload(api: MsgApi, buf: MessageBuffer, source: array<bv8>, max: SizeInfo, processed: SizeInfo)
    returns (status: Status)
    requires source != buf.Data
    requires Within(processed, max)
    requires BitsToOctets(max.Bits) <= source.Length && max.Bytes <= buf.Data.Length
    modifies buf.Data, buf`Size
    ensures PassthruPayload(api, Ingest(old(buf.Data[..]), old(buf.Size), processed), old(source[..]), max)
              == Step(status, Ingest(buf.Data[..], buf.Size, processed))
  {
    BitsToOctetsMonotone(processed.Bits, max.Bits);
    var headerSize := BitsToOctets(processed.Bits);
    var totalSize := BitsToOctets(max.Bits);
    if SizeSub(totalSize, headerSize) > SizeSub(max.Bytes, processed.Bytes) {
      status := MsgTooBig;
    } else {
      if totalSize > headerSize {
        CopyBytes(buf.Data, processed.Bytes, source, headerSize, totalSize - headerSize);
      }
      totalSize := SizeSub(totalSize, headerSize);
      totalSize := SizeAdd(totalSize, processed.Bytes);
      status := buf.SetSize(api, totalSize);
    }
  }

  // ---------------------------------------------------------------------
  // CI_LAB_DecodeInputMessage
  // ---------------------------------------------------------------------

  /** MaxSize for a packet of sourceSize bytes decoded into a native buffer of capacity bytes. */
  function InputMaxSize(sourceSize: SizeT, capacity: SizeT): (max: SizeInfo)
    ensures sourceSize < SIZE_MODULUS / 8 ==> max.Bits == 8 * sourceSize
    ensures BitsToOctets(max.Bits) <= sourceSize
    ensures max.Bytes == capacity
  {
    OctetsBitsOctets(sourceSize);
    SizeInfo(OctetsToBits(sourceSize), capacity)
  }

  /**
   * Everything after a successful allocation: decode the header, resolve the
   * topic from it, then take the schema, passthrough or reject branch.
   * data0 and size0 are the buffer's contents as allocated.
   */
  function DecodeAllocated(allowPassthrough: bool, db: DataTypeDb, ml: MissionLib, api: MsgApi,
                           data0: seq<bv8>, size0: SizeT, source: seq<bv8>, sourceSize: SizeT): (r: Step)
    requires Valid(db) && |data0| < SIZE_MODULUS && sourceSize <= |source|
    ensures r.Status != BufAllocErr
    ensures |r.State.Data| == |data0|
  {
    var max := InputMaxSize(sourceSize, |data0|);
    var h := DecodeHeader(db, Ingest(data0, size0, ZeroSize), source, max);
    if h.Status != Success then h
    else
      match ml.GetTopicInfo(ml.ListenerTopic(h.State.Data))
      case Err => Step(ExternalResourceFail, h.State)
      case Ok(Mapped(parent)) => DecodePayload(db, h.State, parent, source, max)
      case Ok(Unmapped) =>
        if allowPassthrough then
          OctetsBitsOctets(sourceSize);
          PassthruPayload(api, h.State, source, max)
        else Step(ValidationFailure, h.State)
  }

  /** The header step that DecodeAllocated starts with. */
  function HeaderStep(db: DataTypeDb, data0: seq<bv8>, size0: SizeT, source: seq<bv8>, sourceSize: SizeT): Step
    requires Valid(db) && |data0| < SIZE_MODULUS
  {
    DecodeHeader(db, Ingest(data0, size0, ZeroSize), source, InputMaxSize(sourceSize, |data0|))
  }

  /**
   * Header-size floor: a packet with fewer bits than a command header is
   * rejected with WrongMsgLength, the buffer is left as allocated, and neither
   * the unpacker, the topic lookup, the message services nor the passthrough
   * setting has any say.
   */
  lemma DecodeRejectsShortPacket(allowPassthrough: bool, db: DataTypeDb, ml: MissionLib, api: MsgApi,
                                 data0: seq<bv8>, size0: SizeT, source: seq<bv8>, sourceSize: SizeT,
                                 allow2: bool, unpack2: (TypeId, seq<bv8>, seq<bv8>, SizeInfo, SizeInfo) -> Result<Unpacked>,
                                 ml2: MissionLib, api2: MsgApi)
    requires Valid(db) && Valid(db.(UnpackPartial := unpack2))
    requires |data0| < SIZE_MODULUS && sourceSize <= |source| && sourceSize < SIZE_MODULUS / 8
    requires db.GetTypeInfo(CommandHeaderType).Ok?
    requires 8 * sourceSize < db.GetTypeInfo(CommandHeaderType).value.Size.Bits
    ensures DecodeAllocated(allowPassthrough, db, ml, api, data0, size0, source, sourceSize)
              == Step(WrongMsgLength, Ingest(data0, size0, ZeroSize))
    ensures DecodeAllocated(allow2, db.(UnpackPartial := unpack2), ml2, api2, data0, size0, source, sourceSize)
              == DecodeAllocated(allowPassthrough, db, ml, api, data0, size0, source, sourceSize)
  {
    var max := InputMaxSize(sourceSize, |data0|);
    HeaderSizeFloor(db, unpack2, Ingest(data0, size0, ZeroSize), source, max);
  }

  /**
   * The topic is resolved only after a successful header decode: when the
   * header fails, the result is the header's, whatever MissionLib, the message
   * services and the passthrough setting are.
   */
  lemma TopicResolvedOnlyAfterHeader(allowPassthrough: bool, db: DataTypeDb, ml: MissionLib, api: MsgApi,
                                     data0: seq<bv8>, size0: SizeT, source: seq<bv8>, sourceSize: SizeT,
                                     allow2: bool, ml2: MissionLib, api2: MsgApi)
    requires Valid(db) && |data0| < SIZE_MODULUS && sourceSize <= |source|
    requires HeaderStep(db, data0, size0, source, sourceSize).Status != Success
    ensures DecodeAllocated(allowPassthrough, db, ml, api, data0, size0, source, sourceSize)
              == HeaderStep(db, data0, size0, source, sourceSize)
    ensures DecodeAllocated(allow2, db, ml2, api2, data0, size0, source, sourceSize)
              == DecodeAllocated(allowPassthrough, db, ml, api, data0, size0, source, sourceSize)
  {
  }

  /**
   * Topic dispatch after a successful header decode: a lookup error is an
   * external resource failure, a schema takes the schema decode, no schema
   * takes the passthrough when it is allowed and is a validation failure
   * (with the payload region untouched) when it is not.
   */
  lemma DecodeDispatch(allowPassthrough: bool, db: DataTypeDb, ml: MissionLib, api: MsgApi,
                       data0: seq<bv8>, size0: SizeT, source: seq<bv8>, sourceSize: SizeT)
    requires Valid(db) && |data0| < SIZE_MODULUS && sourceSize <= |source|
    requires HeaderStep(db, data0, size0, source, sourceSize).Status == Success
    ensures var h := HeaderStep(db, data0, size0, source, sourceSize);
            var topic := ml.GetTopicInfo(ml.ListenerTopic(h.State.Data));
            var max := InputMaxSize(sourceSize, |data0|);
            var r := DecodeAllocated(allowPassthrough, db, ml, api, data0, size0, source, sourceSize);
            (topic.Err? ==> r == Step(ExternalResourceFail, h.State)) &&
            (topic.Ok? && topic.value.Mapped? ==> r == DecodePayload(db, h.State, topic.value.ParentIntfId, source, max)) &&
            (topic.Ok? && topic.value.Unmapped? && !allowPassthrough ==> r == Step(ValidationFailure, h.State)) &&
            (topic.Ok? && topic.value.Unmapped? && allowPassthrough ==>
               BitsToOctets(max.Bits) <= |source| && r == PassthruPayload(api, h.State, source, max))
  {
    OctetsBitsOctets(sourceSize);
  }

  /**
   * Length fixup: after a successful decode of a topic with a schema, the
   * message length entry is the number of native bytes unpacked, which fits
   * the allocated buffer, and not the length the packet declared.
   */
  lemma SchemaDecodeLengthFixup(allowPassthrough: bool, db: DataTypeDb, ml: MissionLib, api: MsgApi,
                                data0: seq<bv8>, size0: SizeT, source: seq<bv8>, sourceSize: SizeT)
    requires Valid(db) && |data0| < SIZE_MODULUS && sourceSize <= |source|
    requires var h := HeaderStep(db, data0, size0, source, sourceSize);
             h.Status == Success && ml.GetTopicInfo(ml.ListenerTopic(h.State.Data)).Ok? &&
             ml.GetTopicInfo(ml.ListenerTopic(h.State.Data)).value.Mapped?
    requires DecodeAllocated(allowPassthrough, db, ml, api, data0, size0, source, sourceSize).Status == Success
    ensures var r := DecodeAllocated(allowPassthrough, db, ml, api, data0, size0, source, sourceSize).State;
            r.Size == r.Processed.Bytes <= |data0|
  {
  }

  /** The packet is too big only on the passthrough branch, so only for a topic without a schema when passthrough is on. */
  lemma TooBigOnlyOnPassthrough(allowPassthrough: bool, db: DataTypeDb, ml: MissionLib, api: MsgApi,
                                data0: seq<bv8>, size0: SizeT, source: seq<bv8>, sourceSize: SizeT)
    requires Valid(db) && |data0| < SIZE_MODULUS && sourceSize <= |source|
    requires DecodeAllocated(allowPassthrough, db, ml, api, data0, size0, source, sourceSize).Status == MsgTooBig
    ensures allowPassthrough
    ensures var h := HeaderStep(db, data0, size0, source, sourceSize);
            h.Status == Success && ml.GetTopicInfo(ml.ListenerTopic(h.State.Data)) == Ok(Unmapped)
  {
  }

  /**
   * A successful passthrough decode copies the packet's payload (everything
   * after the wire header) verbatim after the native header, leaves the rest
   * of the buffer as the header decode left it, and sets the message length to
   * the native header bytes plus the payload bytes; a header-only packet
   * copies nothing.
   */
  lemma PassthroughDecodeResult(allowPassthrough: bool, db: DataTypeDb, ml: MissionLib, api: MsgApi,
                                data0: seq<bv8>, size0: SizeT, source: seq<bv8>, sourceSize: SizeT)
    requires Valid(db) && |data0| < SIZE_MODULUS && sourceSize <= |source| && sourceSize < SIZE_MODULUS / 8
    requires var h := HeaderStep(db, data0, size0, source, sourceSize);
             h.Status == Success && ml.GetTopicInfo(ml.ListenerTopic(h.State.Data)) == Ok(Unmapped)
    requires allowPassthrough
    requires DecodeAllocated(allowPassthrough, db, ml, api, data0, size0, source, sourceSize).Status == Success
    ensures var h := HeaderStep(db, data0, size0, source, sourceSize).State;
            var r := DecodeAllocated(allowPassthrough, db, ml, api, data0, size0, source, sourceSize).State;
            var header := BitsToOctets(h.Processed.Bits);
            header <= sourceSize &&
            h.Processed.Bytes + (sourceSize - header) <= |data0| &&
            r.Data == Overwrite(h.Data, h.Processed.Bytes, source[header..sourceSize]) &&
            r.Size == h.Processed.Bytes + (sourceSize - header) &&
            (sourceSize == header ==> r.Data == h.Data)
  {
    var max := InputMaxSize(sourceSize, |data0|);
    var h := HeaderStep(db, data0, size0, source, sourceSize).State;
    BitsOctetsBits(sourceSize);
    assert BitsToOctets(max.Bits) == sourceSize;
    DecodeDispatch(allowPassthrough, db, ml, api, data0, size0, source, sourceSize);
    OverwriteEmpty(h.Data, h.Processed.Bytes);
  }

  /** The static input buffer and the configuration of the Command Ingest task. */
  class CommandIngest {
    /** The function-static InputBuffer (EdsPackedBuffer_CFE_HDR_CommandHeader_t) the network data is read into. */
    const InputBuffer: array<bv8>
    /** sizeof(EdsNativeBuffer_CFE_HDR_CommandHeader_t), the size of every buffer requested from the pool. */
    const NativeBufferSize: SizeT
    /** CI_LAB_Global.AllowPassthrough */
    var AllowPassthrough: bool

    constructor (inputBufferSize: nat, nativeBufferSize: SizeT, allowPassthrough: bool)
      ensures fresh(InputBuffer) && InputBuffer.Length == inputBufferSize
      ensures NativeBufferSize == nativeBufferSize && AllowPassthrough == allowPassthrough
    {
      InputBuffer := new bv8[inputBufferSize];
      NativeBufferSize := nativeBufferSize;
      AllowPassthrough := allowPassthrough;
    }

    /** CI_LAB_GetInputBuffer: always succeeds, always hands out the same buffer, with its size. */
    method GetInputBuffer() returns (status: Status, buffer: array<bv8>, size: nat)
      ensures status == Success
      ensures buffer == InputBuffer && size == InputBuffer.Length
    {
      buffer := InputBuffer;
      size := InputBuffer.Length;
      status := Success;
    }

    /**
     * CI_LAB_DecodeInputMessage.  Ownership: an allocation failure releases
     * nothing; any later failure releases the one allocated buffer exactly
     * once; on success the buffer is handed to the caller still held.  The
     * returned pointer is null exactly when the status is not success.
     * ingest, data0 and size0 name the allocated buffer and its contents as
     * allocated.
     */
    method DecodeInputMessage(pool: BufferPool, db: DataTypeDb, ml: MissionLib, api: MsgApi,
                              source: array<bv8>, sourceSize: SizeT)
      returns (status: Status, dest: MessageBuffer?,
               ghost ingest: MessageBuffer?, ghost data0: seq<bv8>, ghost size0: SizeT)
      requires Valid(db) && sourceSize <= source.Length
      modifies pool`Released
      ensures (ingest == null) == old(pool.Exhausted)
      ensures ingest == null ==> status == BufAllocErr && pool.Released == old(pool.Released)
      ensures ingest != null ==>
                fresh(ingest) && fresh(ingest.Data) && ingest.Data.Length == NativeBufferSize && |data0| == NativeBufferSize &&
                DecodeAllocated(AllowPassthrough, db, ml, api, data0, size0, old(source[..]), sourceSize)
                  == Step(status, Ingest(ingest.Data[..], ingest.Size, DecodeAllocated(AllowPassthrough, db, ml, api, data0, size0, old(source[..]), sourceSize).State.Processed))
      ensures ingest != null && status != Success ==> !ingest.Held && pool.Released == old(pool.Released) + [ingest]
      ensures status == Success ==> dest == ingest && dest != null && dest.Held && pool.Released == old(pool.Released)
      ensures (dest == null) == (status != Success)
      ensures source[..] == old(source[..])
    {
      data0, size0 := [], 0;
      var ingestBuf := pool.Allocate(NativeBufferSize);
      ingest := ingestBuf;
      var max := ZeroSize;
      var processed := ZeroSize;
      if ingestBuf == null {
        status := BufAllocErr;
      } else {
        data0, size0 := ingestBuf.Data[..], ingestBuf.Size;
        max := InputMaxSize(sourceSize, NativeBufferSize);
        status, processed := DecodeInputHeader(db, ingestBuf, source, max, processed);
      }
      ghost var header := Step(status, Ingest(if ingestBuf == null then [] else ingestBuf.Data[..],
                                            if ingestBuf == null then 0 else ingestBuf.Size, processed));
      if status == Success {
        var topic := ml.GetTopicInfo(ml.ListenerTopic(ingestBuf.Data[..]));
        if topic.Err? {
          status := ExternalResourceFail;
        } else if topic.value.Mapped? {
          status, processed := DecodeInputPayload(db, ingestBuf, topic.value.ParentIntfId, source, max, processed);
        } else if AllowPassthrough {
          OctetsBitsOctets(sourceSize);
          status := PassthruInputPayload(api, ingestBuf, source, max, processed);
        } else {
          status := ValidationFailure;
        }
      }
      if ingestBuf != null {
        assert DecodeAllocated(AllowPassthrough, db, ml, api, data0, size0, source[..], sourceSize)
                 == Step(status, Ingest(ingestBuf.Data[..], ingestBuf.Size, processed));
      }
      if status != Success && ingestBuf != null {
        pool.Release(ingestBuf);
        ingestBuf := null;
      }
      dest := ingestBuf;
    }
  }
}
