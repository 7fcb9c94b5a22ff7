# cFS message transcoders and BMP280 application, modelled in Dafny

This project models four parts of a cFS (core Flight System) flight-software build.

1. The Command Ingest task's inbound transcoder (`ci_lab_eds_decode.c`). It takes a wire-format command from the task's static input buffer. It decodes the command header through the EDS (Electronic Data Sheet) schema registry. It then either decodes the payload through the topic's schema, copies it verbatim (passthrough), or rejects it. The result is a native software-bus buffer. The buffer goes back to the pool on any failure.
2. The Telemetry Output task's outbound transcoder (`to_lab_eds_encode.c`). It encodes a native telemetry message into the static NetworkBuffer. It either packs the whole message through the schema, or packs the header and copies the payload. It reports the number of octets produced on every path.
3. The BMP280 pressure-sensor application (`bmp280_app.c`). This covers its global counters, initialisation status logic, command dispatch, length checks, sensor read bookkeeping, calibration parsing and raw ADC assembly.
4. The scheduler table macro `SCH_PACK_32BIT` in both bit orders (`default_sch_lab_tbldefs.h`).

Modules and files:

| file | module | contents |
|---|---|---|
| `cfe_types.dfy` | `Cfe` | status codes, `Result`, `Option` |
| `size_accounting.dfy` | `SizeAccounting` | `size_t` values with explicit 64-bit wrap, `EdsLib_SizeInfo_t`, the bits/octets conversions |
| `bytes.dfy` | `Bytes` | `memcpy` as a sequence function and as an array method |
| `eds_registry.dfy` | `EdsRegistry` | the EdsLib data type database and MissionLib topic lookup as injected functions, with the contract `Valid` |
| `software_bus.dfy` | `SoftwareBus` | message buffers with a length field and a ghost ownership flag, the buffer pool with a ghost release log |
| `ci_lab_decode.dfy` | `CiLabDecode` | the inbound transcoder |
| `to_lab_encode.dfy` | `ToLabEncode` | the outbound transcoder |
| `bmp280_codec.dfy` | `Bmp280Codec` | register transfers, calibration parse, raw readings |
| `bmp280_app.dfy` | `Bmp280App` | the application state and its command handling |
| `sch_lab_tbldefs.dfy` | `SchLabTableDefs` | `SCH_PACK_32BIT` |

Each transcoder step is modelled twice:

- as a function on values (`DecodeHeader`, `PassthruPayload`, `EncodePayload`, ...), which is the specification;
- as a method over the buffers (`DecodeInputHeader`, `PassthruInputPayload`, `EncodeOutputPayload`, ...), which follows the C.

Each method's postcondition states that it computes its function. The properties are lemmas about the functions.

Some functions carry no contract of their own. They are the reference definitions that the contracts in the table are stated through:

- `CiLabDecode.HeaderStep`;
- `Bmp280App.GroundCommandEffect` (the command-code switch of `bmp280_app.c`, stated case by case in `GroundCommandErrors`);
- `Bmp280App.PacketEffect` (the message-id switch, stated in `PacketDispatch`);
- `Bmp280App.RunCommands` and `Bmp280App.ReadsSinceReset` (the main loop, stated in `RunLoop` and `SensorCountsEveryRead`);
- `SchLabTableDefs.SchUnpack32` (the reading of two table words back as one value).

Design decisions:

- `size_t` is 64 bits wide. Subtractions and additions on sizes wrap modulo 2^64, as in the C.
- The guards are stated in plain integers. That is possible because a schema pack or unpack never reports more than its MaxSize (`EdsRegistry.Valid`).
- A registry call that fails writes nothing to its outputs.
- `EdsLib_BITS_TO_OCTETS` is taken to be ceiling division by 8. `EdsLib_OCTETS_TO_BITS` is multiplication by 8 in `size_t`.
- The message length entry sits in the native header. The model keeps it apart from the bytes, as the `Size` of a buffer, and every step that writes it says so: the header unpack, the verification and `CFE_MSG_SetSize`.
- `VerifyUnpackedObjectVarSize` with `EDSLIB_DATATYPEDB_RECOMPUTE_LENGTH` may rewrite the native buffer. On success it sets the length entry to the native bytes the unpack produced (ProcessedSize.Bytes) and leaves ProcessedSize as it is.
- The BMP280 counters wrap explicitly: `uint8` modulo 256 and `uint32` modulo 2^32.
- BMP280 bytes and words are integers in the range of their C types. The shift-or expressions of the C combine non-overlapping bit fields, so they are written as the equal sums (`hi * 256 + lo`, `d0 * 4096 + d1 * 16 + d2 / 16`).
- `SCH_PACK_32BIT` keeps the macro's own masks and shifts on 32-bit values.
- `CFE_MSG_Init` is taken to clear the whole telemetry packet.

## Model

| member | source | states |
|---|---|---|
| `CiLabDecode.CommandIngest.GetInputBuffer` | cFS/apps/ci_lab/fsw/src/ci_lab_eds_decode.c:52-60 | always succeeds, always hands out the one static input buffer, with its size |
| `CiLabDecode.DecodeHeader` | cFS/apps/ci_lab/fsw/src/ci_lab_eds_decode.c:69-111 | only the four header statuses occur; success stays within MaxSize and keeps the buffer length; under the registry assumption a failure leaves bytes, length entry and ProcessedSize untouched |
| `CiLabDecode.HeaderLookupFailsFirst` | cFS/apps/ci_lab/fsw/src/ci_lab_eds_decode.c:80-85 | a failed header type lookup is EXTERNAL_RESOURCE_FAIL before the size is looked at |
| `CiLabDecode.HeaderSizeFloor` | cFS/apps/ci_lab/fsw/src/ci_lab_eds_decode.c:86-93 | fewer packet bits than a command header is WRONG_MSG_LENGTH whatever the unpacker would do, so the unpacker is never run |
| `CiLabDecode.HeaderUnpackFailure` | cFS/apps/ci_lab/fsw/src/ci_lab_eds_decode.c:97-103 | a header the unpacker refuses is VALIDATION_FAILURE |
| `CiLabDecode.HeaderSuccess` | cFS/apps/ci_lab/fsw/src/ci_lab_eds_decode.c:80-108 | the header decodes if and only if lookup, size check and unpack all pass, and then holds the unpacked bytes, the length entry of the header the unpack wrote, and the unpack's ProcessedSize |
| `CiLabDecode.DecodeInputHeader` | cFS/apps/ci_lab/fsw/src/ci_lab_eds_decode.c:69-111 | the method leaves exactly the status, buffer bytes, length entry and ProcessedSize that `DecodeHeader` gives |
| `CiLabDecode.DecodePayload` | cFS/apps/ci_lab/fsw/src/ci_lab_eds_decode.c:119-169 | only SUCCESS, EXTERNAL_RESOURCE_FAIL and VALIDATION_FAILURE occur; EXTERNAL_RESOURCE_FAIL leaves the state untouched; otherwise ProcessedSize stays within MaxSize; on SUCCESS the length entry is the native bytes unpacked |
| `CiLabDecode.PayloadVerifiesOnlyAfterUnpack` | cFS/apps/ci_lab/fsw/src/ci_lab_eds_decode.c:134-156 | a failed argument-type lookup or a failed unpack is EXTERNAL_RESOURCE_FAIL and the verifier has no say |
| `CiLabDecode.PayloadVerdict` | cFS/apps/ci_lab/fsw/src/ci_lab_eds_decode.c:156-166 | after a successful unpack, the verifier decides between SUCCESS (its bytes, the length entry recomputed to the native bytes unpacked) and VALIDATION_FAILURE (the unpacked bytes and the length entry the unpack wrote) |
| `CiLabDecode.DecodeInputPayload` | cFS/apps/ci_lab/fsw/src/ci_lab_eds_decode.c:119-169 | the method leaves exactly the status, bytes, length entry and ProcessedSize that `DecodePayload` gives |
| `CiLabDecode.PassthruPayload` | cFS/apps/ci_lab/fsw/src/ci_lab_eds_decode.c:178-217 | MSG_TOO_BIG if and only if the payload exceeds the room after the native header, with nothing changed; otherwise the payload bytes are copied verbatim after the native header and, on success, the length is native header plus payload |
| `CiLabDecode.PassthruZeroPayload` | cFS/apps/ci_lab/fsw/src/ci_lab_eds_decode.c:197-213 | a header-only command copies nothing and gets the native header's length |
| `CiLabDecode.PassthruInputPayload` | cFS/apps/ci_lab/fsw/src/ci_lab_eds_decode.c:178-217 | the method leaves exactly the status, bytes and length that `PassthruPayload` gives |
| `CiLabDecode.DecodeAllocated` | cFS/apps/ci_lab/fsw/src/ci_lab_eds_decode.c:250-285 | after allocation the status is never BUF_ALOC_ERR and the buffer keeps its capacity |
| `CiLabDecode.InputMaxSize` | cFS/apps/ci_lab/fsw/src/ci_lab_eds_decode.c:250-251 | MaxSize counts 8 bits per packet octet (when that fits in size_t), never more octets than the packet has, and the native buffer's size in bytes |
| `CiLabDecode.DecodeRejectsShortPacket` | cFS/apps/ci_lab/fsw/src/ci_lab_eds_decode.c:250-253 | a packet shorter than a command header is WRONG_MSG_LENGTH, leaves the buffer as allocated, and no unpacker, topic table, message service or passthrough setting changes that |
| `CiLabDecode.TopicResolvedOnlyAfterHeader` | cFS/apps/ci_lab/fsw/src/ci_lab_eds_decode.c:255-263 | when the header fails, the topic lookup, message services and passthrough setting have no say |
| `CiLabDecode.DecodeDispatch` | cFS/apps/ci_lab/fsw/src/ci_lab_eds_decode.c:255-285 | topic lookup error gives EXTERNAL_RESOURCE_FAIL; a schema gives the schema decode; no schema gives the passthrough when allowed and VALIDATION_FAILURE otherwise |
| `CiLabDecode.TooBigOnlyOnPassthrough` | cFS/apps/ci_lab/fsw/src/ci_lab_eds_decode.c:275-279 | MSG_TOO_BIG only happens with passthrough on, a good header and a topic without schema |
| `CiLabDecode.PassthroughDecodeResult` | cFS/apps/ci_lab/fsw/src/ci_lab_eds_decode.c:198-213 | a successful passthrough decode holds the packet bytes after the wire header verbatim after the native header, and its length is native header plus payload |
| `CiLabDecode.SchemaDecodeLengthFixup` | cFS/apps/ci_lab/fsw/src/ci_lab_eds_decode.c:156-160 | after a successful decode of a topic with a schema the length entry is the number of native bytes unpacked, within the allocated buffer |
| `CiLabDecode.CommandIngest.DecodeInputMessage` | cFS/apps/ci_lab/fsw/src/ci_lab_eds_decode.c:226-296 | allocation failure is BUF_ALOC_ERR with nothing released; otherwise the outcome is `DecodeAllocated`; any later failure releases the buffer exactly once; success hands it out still held; the output is null if and only if the status is not SUCCESS |
| `SoftwareBus.BufferPool.Release` | cFS/apps/ci_lab/fsw/src/ci_lab_eds_decode.c:287-291 | only a held buffer can be released, and it is logged as released and no longer held |
| `SoftwareBus.BufferPool.Allocate` | cFS/apps/ci_lab/fsw/src/ci_lab_eds_decode.c:240-247 | null if and only if the pool is exhausted; otherwise a fresh buffer of the requested size, owned by the caller |
| `SoftwareBus.MessageBuffer.SetSize` | cFS/apps/ci_lab/fsw/src/ci_lab_eds_decode.c:209-213 | the length field takes the new size exactly when the message service accepts it, and keeps its old value otherwise |
| `SoftwareBus.SetSizeStatus` | cFS/apps/ci_lab/fsw/src/ci_lab_eds_decode.c:213 | setting a size is SUCCESS or BAD_ARGUMENT, SUCCESS exactly when the service accepts that size |
| `SizeAccounting.SizeSub` | cFS/apps/ci_lab/fsw/src/ci_lab_eds_decode.c:190 | a size_t difference is exact when it cannot underflow, and wraps to a value above the minuend when it does |
| `SizeAccounting.SizeAdd` | cFS/apps/ci_lab/fsw/src/ci_lab_eds_decode.c:210-211 | a size_t sum is the true sum modulo 2^64, exact when it fits |
| `SizeAccounting.BitsToOctets` | cFS/apps/to_lab/fsw/src/to_lab_eds_encode.c:228 | the octet count is the least whole number of octets holding the bits |
| `SizeAccounting.OctetsToBits` | cFS/apps/to_lab/fsw/src/to_lab_eds_encode.c:155 | the bit count is a multiple of 8, eight times the octets whenever that fits in size_t |
| `Bytes.Overwrite` | cFS/apps/ci_lab/fsw/src/ci_lab_eds_decode.c:206 | a memcpy of s at off: positions in the target range hold s, every other position is unchanged, the length is kept |
| `Bmp280Codec.FromInt16` | cFS/apps/bmp280_app/fsw/src/bmp280_app.h:69-79 | the 16-bit pattern of a signed value is equal to it modulo 2^16 and has the sign bit set exactly for negatives |
| `Bmp280Codec.TransferStatus` | cFS/apps/bmp280_app/fsw/src/bmp280_app.c:617-623 | a register transfer maps to SUCCESS when it delivered and to EXTERNAL_RESOURCE_FAIL otherwise |
| `Bytes.CopyBytes` | cFS/apps/ci_lab/fsw/src/ci_lab_eds_decode.c:198-207 | the array copy overwrites exactly the target range with the source range and nothing else |
| `ToLabEncode.FinalizeStep` | cFS/apps/to_lab/fsw/src/to_lab_eds_encode.c:80-89 | finalize runs only after success; its failure is VALIDATION_FAILURE with the packed bytes kept |
| `ToLabEncode.EncodeStage` | cFS/apps/to_lab/fsw/src/to_lab_eds_encode.c:63-78 | lookup or pack failure is EXTERNAL_RESOURCE_FAIL with nothing written; success if and only if both succeed, within MaxSize |
| `ToLabEncode.EncodePayload` | cFS/apps/to_lab/fsw/src/to_lab_eds_encode.c:48-92 | only SUCCESS, EXTERNAL_RESOURCE_FAIL and VALIDATION_FAILURE occur; EXTERNAL_RESOURCE_FAIL writes nothing |
| `ToLabEncode.EncodeFinalizesOnlyAfterPack` | cFS/apps/to_lab/fsw/src/to_lab_eds_encode.c:63-80 | when the lookup or the pack fails the finalizer has no say |
| `ToLabEncode.EncodeVerdict` | cFS/apps/to_lab/fsw/src/to_lab_eds_encode.c:80-89 | after a successful pack the finalizer decides between SUCCESS and VALIDATION_FAILURE |
| `ToLabEncode.EncodeOutputPayload` | cFS/apps/to_lab/fsw/src/to_lab_eds_encode.c:48-92 | the method leaves exactly what `EncodePayload` gives |
| `ToLabEncode.PassthruStage` | cFS/apps/to_lab/fsw/src/to_lab_eds_encode.c:117-156 | header pack with the TelemetryHeader type; its failure is EXTERNAL_RESOURCE_FAIL with nothing written; MSG_TOO_BIG if and only if the payload exceeds the room after the packed header, keeping the pack's ProcessedSize; otherwise the copy (under the C's own condition) and ProcessedSize = (8 x produced octets, Max.Bytes) |
| `ToLabEncode.PassthruOutput` | cFS/apps/to_lab/fsw/src/to_lab_eds_encode.c:102-171 | only the four passthrough statuses occur and the output keeps its size |
| `ToLabEncode.PassthruPackFailure` | cFS/apps/to_lab/fsw/src/to_lab_eds_encode.c:117-124 | a failed header pack is EXTERNAL_RESOURCE_FAIL, copies nothing and never finalizes |
| `ToLabEncode.PassthruTooBig` | cFS/apps/to_lab/fsw/src/to_lab_eds_encode.c:127-134 | a payload that does not fit is MSG_TOO_BIG with the pack's ProcessedSize and no finalize |
| `ToLabEncode.PassthruCopiesPayload` | cFS/apps/to_lab/fsw/src/to_lab_eds_encode.c:138-147 | when Max.Bytes exceeds the packed header, output bytes from the packed header on are the source bytes [Proc.Bytes, Max.Bytes) and every other byte is as the pack left it; otherwise nothing is copied |
| `ToLabEncode.PassthruSkipsShortPayload` | cFS/apps/to_lab/fsw/src/to_lab_eds_encode.c:138-155 | as written, a payload that ends before the packed header ends is not copied, yet the bit count still claims it |
| `ToLabEncode.PassthruOutputSize` | cFS/apps/to_lab/fsw/src/to_lab_eds_encode.c:150-155 | after a successful passthrough the octets produced are packed header plus payload, within the NetworkBuffer, and all source bytes count as consumed |
| `ToLabEncode.PassthruOutputPayload` | cFS/apps/to_lab/fsw/src/to_lab_eds_encode.c:102-171 | the method leaves exactly what `PassthruOutput` gives |
| `ToLabEncode.OutputMaxSize` | cFS/apps/to_lab/fsw/src/to_lab_eds_encode.c:191-201 | MaxSize is (8 x NetworkBuffer size, message size) when GetSize succeeds and zero otherwise; it never claims more octets than the NetworkBuffer holds |
| `ToLabEncode.EncodeMessage` | cFS/apps/to_lab/fsw/src/to_lab_eds_encode.c:179-232 | the output keeps the NetworkBuffer's size; neither BUF_ALOC_ERR nor WRONG_MSG_LENGTH can occur |
| `ToLabEncode.DestSize` | cFS/apps/to_lab/fsw/src/to_lab_eds_encode.c:228 | the reported size is the least number of octets that holds the processed bits |
| `ToLabEncode.EncodeDispatch` | cFS/apps/to_lab/fsw/src/to_lab_eds_encode.c:206-226 | topic lookup error gives EXTERNAL_RESOURCE_FAIL with 0 octets; a schema gives the schema encode; no schema gives the passthrough exactly when allowed, else VALIDATION_FAILURE with 0 octets |
| `ToLabEncode.GetSizeFailureSwallowed` | cFS/apps/to_lab/fsw/src/to_lab_eds_encode.c:196-219 | a GetSize failure does not decide the result: a passthrough topic can still give SUCCESS, with 0 octets |
| `ToLabEncode.TelemetryOutput.EncodeOutputMessage` | cFS/apps/to_lab/fsw/src/to_lab_eds_encode.c:179-232 | on every path the caller gets the NetworkBuffer and ceil(Processed.Bits / 8), and buffer and status are those of `EncodeMessage` |
| `Bmp280Codec.ToInt16` | cFS/apps/bmp280_app/fsw/src/bmp280_app.h:69-79 | an int16 field holds the 16-bit value modulo 2^16, negative exactly when the sign bit is set |
| `Bmp280Codec.Int16RoundTrip` | cFS/apps/bmp280_app/fsw/src/bmp280_app.h:69-79 | the signed reading and the 16-bit pattern convert into each other exactly |
| `Bmp280Codec.Le16` | cFS/apps/bmp280_app/fsw/src/bmp280_app.c:628 | the pairing puts the odd byte in the high half and the even byte in the low half |
| `Bmp280Codec.Le16RoundTrip` | cFS/apps/bmp280_app/fsw/src/bmp280_app.c:628-639 | pairing and splitting are inverses |
| `Bmp280Codec.ParseCalibration` | cFS/apps/bmp280_app/fsw/src/bmp280_app.c:628-639 | word i of the result is calib[2i+1]*256 + calib[2i] for i = 0..11, signed fields in two's complement; t_fine untouched |
| `Bmp280Codec.ParseCalibrationBlock` | cFS/apps/bmp280_app/fsw/src/bmp280_app.c:628-639 | parsing the block of any calibration gives that calibration back, apart from t_fine |
| `Bmp280Codec.CalibrationBlockOfParse` | cFS/apps/bmp280_app/fsw/src/bmp280_app.c:628-639 | the parse loses nothing: every 24-byte block is the block of its parse |
| `Bmp280Codec.ReadRegisters` | cFS/apps/bmp280_app/fsw/src/bmp280_app.c:521-534 | a transfer succeeds if and only if the pointer write went through and exactly the requested number of bytes came back |
| `Bmp280Codec.ReadChipId` | cFS/apps/bmp280_app/fsw/src/bmp280_app.c:503-516 | the one-byte read succeeds exactly on a one-byte reply, and yields that byte |
| `Bmp280Codec.WriteRegisterStatus` | cFS/apps/bmp280_app/fsw/src/bmp280_app.c:486-498 | a register write succeeds exactly when the bus took both bytes |
| `Bmp280Codec.Raw20` | cFS/apps/bmp280_app/fsw/src/bmp280_app.c:664-665 | the reading is below 2^20, its top 8 bits are d0, the next 8 are d1, the low 4 are the high nibble of d2 |
| `Bmp280Codec.Raw20Injective` | cFS/apps/bmp280_app/fsw/src/bmp280_app.c:664-665 | two readings are equal if and only if their bytes agree, except the dropped low nibble |
| `Bmp280Codec.ReadRawData` | cFS/apps/bmp280_app/fsw/src/bmp280_app.c:647-668 | a reading exists if and only if all six bytes were read; pressure is built from bytes 0-2, temperature from bytes 3-5 |
| `Bmp280App.Inc8` | cFS/apps/bmp280_app/fsw/src/bmp280_app.c:337 | a uint8 counter increment wraps from 255 to 0 |
| `Bmp280App.Inc32` | cFS/apps/bmp280_app/fsw/src/bmp280_app.c:396 | a uint32 counter increment wraps from 2^32 - 1 to 0 |
| `Bmp280App.InitSensorStatus` | cFS/apps/bmp280_app/fsw/src/bmp280_app.c:539-604 | sensor init succeeds if and only if the chip id reads 0x58, the calibration reads whole and both configuration writes go through |
| `Bmp280App.CalibrationAfterInit` | cFS/apps/bmp280_app/fsw/src/bmp280_app.c:555-569 | the calibration is parsed only after a correct chip id and a whole read, and is unchanged otherwise |
| `Bmp280App.WrongChipRefused` | cFS/apps/bmp280_app/fsw/src/bmp280_app.c:555-560 | a chip id other than 0x58 is EXTERNAL_RESOURCE_FAIL and the calibration is never read |
| `Bmp280App.InitI2cStatus` | cFS/apps/bmp280_app/fsw/src/bmp280_app.c:448-468 | the bus comes up if and only if it opens and accepts the slave address |
| `Bmp280App.SensorStatusAfterInit` | cFS/apps/bmp280_app/fsw/src/bmp280_app.c:206-227 | SensorStatus is 1 exactly when bus and sensor both came up, else 2 |
| `Bmp280App.StartupStatus` | cFS/apps/bmp280_app/fsw/src/bmp280_app.c:150-201 | initialisation fails with the status of the first failing cFE service in call order (event registration, pipe creation, housekeeping subscription, command subscription), and succeeds exactly when all four succeed |
| `Bmp280App.AppData.Init` | cFS/apps/bmp280_app/fsw/src/bmp280_app.c:102-234 | counters zeroed, descriptor -1 and sensor not initialised before anything can fail; an early cFE failure is returned; otherwise SUCCESS with SensorStatus and SensorInitialized from the sensor bring-up |
| `Bmp280App.AppData.InitI2C` | cFS/apps/bmp280_app/fsw/src/bmp280_app.c:448-468 | status as `InitI2cStatus`; the descriptor is reset to -1 when the slave address is refused |
| `Bmp280App.AppData.InitSensor` | cFS/apps/bmp280_app/fsw/src/bmp280_app.c:539-604 | status as `InitSensorStatus`; calibration as `CalibrationAfterInit` |
| `Bmp280App.AppData.ReadCalibration` | cFS/apps/bmp280_app/fsw/src/bmp280_app.c:609-642 | a failed read returns the failure with the calibration unchanged; otherwise the calibration is the parse of the block |
| `Bmp280App.AppData.ProcessCommandPacket` | cFS/apps/bmp280_app/fsw/src/bmp280_app.c:239-260 | the counters and housekeeping payload end as `PacketEffect` gives them, whose cases `PacketDispatch` states |
| `Bmp280App.PacketDispatch` | cFS/apps/bmp280_app/fsw/src/bmp280_app.c:239-260 | an unknown message id changes nothing; a housekeeping request only copies the two command counters into the housekeeping payload; a ground command leaves that payload alone |
| `Bmp280App.AppData.ProcessGroundCommand` | cFS/apps/bmp280_app/fsw/src/bmp280_app.c:265-300 | the counters end as `GroundCommandEffect` gives them, whose cases `GroundCommandErrors` states |
| `Bmp280App.GroundCommandErrors` | cFS/apps/bmp280_app/fsw/src/bmp280_app.c:271-299 | an unknown code or a wrong length counts exactly one error and nothing else; each known code runs its handler only with the right length |
| `Bmp280App.FirstFailure` | cFS/apps/bmp280_app/fsw/src/bmp280_app.c:54-83 | the main loop's stopping point: every receive before it succeeded, and the receive at it failed unless the inbox ran out |
| `Bmp280App.AppData.RunLoop` | cFS/apps/bmp280_app/fsw/src/bmp280_app.c:54-83 | a run status other than APP_RUN processes nothing; otherwise exactly the packets before the first failed receive are processed in order, and the run status ends APP_ERROR exactly when a receive failed |
| `Bmp280App.WrappedIncrement` | cFS/apps/bmp280_app/fsw/src/bmp280_app.c:362-396 | incrementing either of two uint32 counters adds one to their sum modulo 2^32 |
| `Bmp280App.PacketKeepsTally` | cFS/apps/bmp280_app/fsw/src/bmp280_app.c:239-396 | one packet keeps the sensor read and error counters' sum equal to the accepted reads since the last accepted reset, modulo 2^32 |
| `Bmp280App.SensorCountsEveryRead` | cFS/apps/bmp280_app/fsw/src/bmp280_app.c:54-83 | over any run of the main loop, each accepted sensor read adds exactly one to read counter plus error counter, a reset starts again from zero, and nothing else moves the sum |
| `Bmp280App.AppData.ReportHousekeeping` | cFS/apps/bmp280_app/fsw/src/bmp280_app.c:305-314 | the housekeeping packet gets the two command counters, and the result is SUCCESS |
| `Bmp280App.AppData.ResetCounters` | cFS/apps/bmp280_app/fsw/src/bmp280_app.c:319-330 | both command counters and both sensor counters become zero and nothing else changes |
| `Bmp280App.AppData.Noop` | cFS/apps/bmp280_app/fsw/src/bmp280_app.c:335-344 | the command counter goes up by one, wrapping, and nothing else changes |
| `Bmp280App.AppData.ReadSensor` | cFS/apps/bmp280_app/fsw/src/bmp280_app.c:349-410 | always one more command; an uninitialised sensor or failed read is one more error in both error counters with the read counter unchanged; a good read is one more read; always SUCCESS |
| `Bmp280App.AppData.VerifyCmdLength` | cFS/apps/bmp280_app/fsw/src/bmp280_app.c:415-439 | true if and only if the length is the expected one; a mismatch counts exactly one error, a match changes nothing |
| `SchLabTableDefs.HighHalf` | cFS/apps/sch_lab/config/default_sch_lab_tbldefs.h:41 | the high word is the value's quotient by 2^16, so it fits a uint16 |
| `SchLabTableDefs.LowHalf` | cFS/apps/sch_lab/config/default_sch_lab_tbldefs.h:43 | the low word is the value's remainder by 2^16 |
| `SchLabTableDefs.SchPack32` | cFS/apps/sch_lab/config/default_sch_lab_tbldefs.h:40-44 | the two words, read back in the same bit order (low word first in little order, high word first in big order), give the value |
| `SchLabTableDefs.SchPackUnique` | cFS/apps/sch_lab/config/default_sch_lab_tbldefs.h:40-44 | the packing is the only pair of words that reads back as the value in that bit order |
| `SchLabTableDefs.SchUnpackRoundTrip` | cFS/apps/sch_lab/config/default_sch_lab_tbldefs.h:40-44 | every pair of words is the packing of the value it stands for |
| `SchLabTableDefs.SchPackOrdersSwapped` | cFS/apps/sch_lab/config/default_sch_lab_tbldefs.h:40-44 | the two bit orders give the same pair, swapped |

## Left out

- CiLabDecode.DecodeHeader: a failed type lookup or header unpack is modelled as writing nothing. Whatever EdsLib leaves partially written in the buffer or in ProcessedSize is not modelled.
- CiLabDecode.DecodePayload: a failed argument-type lookup, unpack or verification is modelled as writing nothing beyond what the earlier successful calls wrote. EdsLib's partial writes on failure are not modelled.
- ToLabEncode.EncodeStage: a failed pack is modelled as writing nothing. The C reports `EdsLib_BITS_TO_OCTETS(ProcessedSize.Bits)` of whatever the packer left; the model reports 0 octets.
- ToLabEncode.EncodePayload: inherits the EncodeStage assumption; a failed finalize keeps the packed bytes and ProcessedSize.
- ToLabEncode.PassthruStage: a failed header pack is modelled as writing nothing and reports 0 octets, where the C reports whatever the packer left in ProcessedSize.Bits.
- CiLabDecode.PayloadVerdict: the length entry a successful RECOMPUTE_LENGTH verification writes is taken to be ProcessedSize.Bytes. EdsLib's own length computation is not part of this model, and neither is any change the verification makes to ProcessedSize.

- EdsLib and MissionLib internals are not modelled, because they are not in these files. This covers the bit layouts, the pack, unpack, verify and finalize algorithms, the argument-type search, and the pub/sub parameter and topic derivation. Each one is an injected function, and `EdsRegistry.Valid` states what the transcoders rely on.
- `CFE_SB_AllocateMessageBuffer`, `CFE_SB_ReleaseMessageBuffer` and `CFE_MSG_SetSize` / `GetSize` / `GetMsgId` / `GetFcnCode` are abstract state. Their outcomes are the pool's `Exhausted` flag, the `SetSizeAccepts` predicate, a `Result` for GetSize, and the fields of `CommandMessage`. Message header layout is not modelled.
- Logging and telemetry transmission are left out, because they have no modelled effect: `OS_printf`, `CFE_EVS_SendEvent`, `CFE_ES_WriteToSysLog`, `CFE_ES_PerfLog*`, `CFE_SB_TimeStampMsg` and `CFE_SB_TransmitMsg`. The BMP280 event filter table is left out for the same reason.
- The static `InputBuffer` and `NetworkBuffer` are shared between calls. Reentrancy and concurrency are not modelled; only single sequential calls are.
- The decode and encode passthrough paths are not shown to be inverse. The inbound path uses the command header schema and the outbound path the telemetry header schema, and no registry fact relates the two.
- The BMP280 I2C `open`, `ioctl`, `read`, `write` and `close` calls are inputs (`I2cOpen`, `SensorBus`, the raw data reply). `BMP280_CloseI2C`, `CFE_ES_ExitApp`, pipe creation and subscription are left out, apart from the status each returns to `Init`.
- The main loop's receives are an inbox of deliveries. `CFE_ES_RunLoop` is modelled only as the run-status test, and the end of the inbox stands for a stop request from executive services, whose effect on the run status is not modelled.
- `BMP280_CompensateTemperature` and `BMP280_CompensatePressure` are left out, so the `Temperature`, `Pressure` and `t_fine` values they produce are absent. They compute in floating point, and they depend on signed right shifts of negative values and on int64 overflow.
- `Bmp280App.AppData.ReadSensor`: does not model the telemetry temperature and pressure, because they come from the compensation formulas.
- `CFE_MSG_Init` is modelled as zeroing the two telemetry packets' counters. Their headers are not modelled.
- `to_lab_dispatch.c` is not part of this model. It only routes to command handlers that are not among these files.
- The constant-only headers are not modelled beyond the constants used: command codes 0-2, message ids 0x1884 and 0x1885, chip id 0x58, and the control and config values 0x27 and 0xA0.
