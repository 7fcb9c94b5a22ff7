/**
 * The schema registry the transcoders consult: the EdsLib data type and
 * interface databases and the MissionLib topic lookup.  Their internals (the
 * bit layouts, the argument-type search, the topic tables) are not part of
 * this model; each lookup is an injected function, and Valid states the
 * contract the transcoders rely on.  A failing call is modelled as writing
 * nothing: its outputs keep their previous values (EdsLib may leave partial
 * output behind, which this model does not capture).
 */
module EdsRegistry {
  import opened Cfe
  import opened SizeAccounting

  /** EdsLib_Id_t: an opaque handle to a wire-format layout. */
  datatype TypeId =
    | CommandHeaderType    // CFE_HDR/CommandHeader
    | TelemetryHeaderType  // CFE_HDR/TelemetryHeader
    | SchemaType(n: int)   // any other registered type

  /** EdsLib interface identifier (ParentIntfId). */
  type IntfId = int

  /** Software-bus topic identifier. */
  type TopicId = int

  /** The registry interface whose argument types are searched: CFE_SB_TELECOMMAND_ID or CFE_SB_TELEMETRY_ID. */
  datatype Indication = Telecommand | Telemetry

  /** EdsLib_DataTypeDB_TypeInfo_t, reduced to the size of the type on the wire. */
  datatype TypeInfo = TypeInfo(Size: SizeInfo)

  /**
   * What a pack or unpack leaves behind: the type id it may have refined, the
   * whole destination buffer afterwards, and the updated ProcessedSize.
   */
  datatype Coded = Coded(Id: TypeId, Dest: seq<bv8>, Processed: SizeInfo)

  /**
   * What an unpack into a native software-bus buffer leaves behind: as Coded,
   * and also the message length entry that the native header written into the
   * buffer holds afterwards (what CFE_MSG_GetSize would then report).
   */
  datatype Unpacked = Unpacked(Id: TypeId, Dest: seq<bv8>, Processed: SizeInfo, Length: SizeT)

  /** What a successful verification leaves: the native buffer and its (recomputed) length entry. */
  datatype Verified = Verified(Dest: seq<bv8>, Length: SizeT)

  /**
   * EdsLib's data type and interface databases.  The arguments follow the C
   * calls: type id, destination buffer, source buffer, MaxSize, ProcessedSize
   * on entry.  VerifyUnpacked stands for the call with
   * EDSLIB_DATATYPEDB_RECOMPUTE_LENGTH.
   */
  datatype DataTypeDb = DataTypeDb(
    GetTypeInfo: TypeId -> Result<TypeInfo>,
    FindArgumentType: (Indication, IntfId) -> Result<TypeId>,
    UnpackPartial: (TypeId, seq<bv8>, seq<bv8>, SizeInfo, SizeInfo) -> Result<Unpacked>,
    VerifyUnpacked: (TypeId, seq<bv8>, seq<bv8>, SizeInfo) -> Result<Verified>,
    PackPartial: (TypeId, seq<bv8>, seq<bv8>, SizeInfo, SizeInfo) -> Result<Coded>,
    FinalizePacked: (TypeId, seq<bv8>, seq<bv8>, SizeInfo) -> Result<seq<bv8>>)

  /** A topic either has a schema (a valid parent interface id) or has none. */
  datatype TopicMapping = Unmapped | Mapped(ParentIntfId: IntfId)

  /**
   * MissionLib: the topic id derived from a native header (Get_PubSub_Parameters
   * followed by UnmapListenerComponent or UnmapPublisherComponent, which read
   * the header bytes) and the topic lookup CFE_MissionLib_GetTopicInfo.
   */
  datatype MissionLib = MissionLib(
    ListenerTopic: seq<bv8> -> TopicId,
    PublisherTopic: seq<bv8> -> TopicId,
    GetTopicInfo: TopicId -> Result<TopicMapping>)

  /** A successful pack or unpack keeps the buffer length and stays within MaxSize. */
  predicate CodedWithin(dest: seq<bv8>, max: SizeInfo, c: Coded)
  {
    |c.Dest| == |dest| && Within(c.Processed, max)
  }

  /** A successful unpack keeps the buffer length and stays within MaxSize. */
  predicate UnpackedWithin(dest: seq<bv8>, max: SizeInfo, u: Unpacked)
  {
    |u.Dest| == |dest| && Within(u.Processed, max)
  }

  /**
   * The contract of the data type database that the transcoders depend on.
   * VerifyUnpacked is the call with EDSLIB_DATATYPEDB_RECOMPUTE_LENGTH: on
   * success the length entry is the number of native bytes the unpack
   * produced (ProcessedSize.Bytes).
   */
  ghost predicate Valid(db: DataTypeDb)
  {
    (forall id, d, s, max, p :: db.UnpackPartial(id, d, s, max, p).Ok? ==>
       UnpackedWithin(d, max, db.UnpackPartial(id, d, s, max, p).value)) &&
    (forall id, d, s, max, p :: db.PackPartial(id, d, s, max, p).Ok? ==>
       CodedWithin(d, max, db.PackPartial(id, d, s, max, p).value)) &&
    (forall id, d, s, p :: db.VerifyUnpacked(id, d, s, p).Ok? ==>
       |db.VerifyUnpacked(id, d, s, p).value.Dest| == |d| && db.VerifyUnpacked(id, d, s, p).value.Length == p.Bytes) &&
    (forall id, s, d, p :: db.FinalizePacked(id, s, d, p).Ok? ==>
       |db.FinalizePacked(id, s, d, p).value| == |d|)
  }
}
