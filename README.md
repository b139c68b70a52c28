# SDM72 Modbus client: a verified model

This project models, in Dafny, the core of a Rust Modbus client for the
Eastron SDM72 energy meter, and proves properties of that model.

- **Register protocol** (`protocol.dfy`, `codec.dfy`, `float32.dfy`,
  `protocol_properties.dfy`) covers these parts of `src/protocol.rs`:
  - the `ModbusParam` descriptors (address, word quantity, wire type);
  - the big-endian word codec `words_to_protocol_value!` / `protocol_value_to_words!`;
  - every `decode_from_holding_registers` and `encode_for_write_registers`, including the code tables of the six enumerations;
  - the range-checked `TryFrom` constructors;
  - `BaudRate` to and from `u16`;
  - `ResetHistoricalData`;
  - the input-register address table and `get_subset_register_range!`.

  Settings travel as `f32`. An `f32` is its IEEE 754-2008 binary32 bit pattern
  (section 3.4 of IEEE 754-2008). `n as f32` is exact below 2^24. A float
  `match` arm such as `1.0 =>` is float equality, so `0.0` also accepts -0.0.
  `val as u8` / `val as u16` is Rust's saturating cast on every pattern:
  NaN gives 0, negative values give 0, large values saturate and fractions
  truncate.
- **Transport** (`transport.dfy`) is a tokio-modbus `Context` as a class with
  three parts:
  - the meter it talks to, as a value: holding and input register maps, plus
    the request positions at which the link loses a request;
  - the slave id it addresses;
  - a log of requests and `std::thread::sleep` pauses.
- **Operations** (`session.dfy`, `batch.dfy`, `tokio_sync.dfy`) cover
  `src/tokio_sync.rs`:
  - `read_holding!`, `write_holding!`, `set_kppa` and `reset_historical_data`;
  - `read_all_settings` and `read_all`, which issue their batch reads with
    pauses between them and then cut every field out of the batch responses.

  Each operation is a method on the context. It is proved against a function
  that gives, as a value, the events it logs and the result it returns.
- **Clients**:
  - `tokio_sync_client.dfy` and `tokio_async_client.dfy` model `SDM72 { ctx }`;
  - `tokio_sync_safe_client.dfy` and `tokio_async_safe_client.dfy` model
    `SafeClient` on a shared context, including the retargeting `set_address`.
- **Program** (`app.dfy`, `polling.dfy`) covers `src/main.rs`:
  - the RTU timing floor and its clamp;
  - the KPPA authorization gate, and its place before every command that changes the meter;
  - the stdout daemon's loop, with its pause of `delay.max(poll_interval)`.

Notes on the code against the source's own doc comments (the model follows the code):
- The doc comment at `src/protocol.rs:541` gives a backlight time of 1 to 120
  minutes. The decoder at `src/protocol.rs:565-572` maps every value other than
  0.0 and 121.0 to `Delayed(val as u8)`.
- The doc comments at `src/protocol.rs:239`, `349` and `482` give ranges for the
  address, the password and the auto-scroll time. Only `try_from` checks them.
  The decoders do not re-check them, so a stored 0.0 reads as `Address(0)`.
- The doc comment at `src/protocol.rs:755-757` limits a request to 30
  parameters. The batches `read_all` computes span 76, 26, 56 and 4 input
  registers, that is 38, 13, 28 and 2 two-word parameters, so the first
  batch exceeds the limit. The model sends the batches the code computes.
- `BaudRate::decode` (`src/protocol.rs:445-448`) returns the raw wire code
  (2 for 9600 baud), not a rate.

## Model

| member | source | states |
|---|---|---|
| Codec.WordsToValue | src/protocol.rs:29-39 | Fails, always with `WordsCountError`, exactly when twice the word count differs from the wire type's byte width. Otherwise the value fits the wire type. |
| Codec.ValueToWords | src/protocol.rs:42-52 | Emits exactly byte width / 2 words. |
| Codec.WordsToValueBigEndian | src/protocol.rs:29-39 | One word decodes to itself. Two words decode to `hi * 65536 + lo`: most significant word first. |
| Codec.ValueToWordsBigEndian | src/protocol.rs:42-52 | A `u16` is written as `[v]`. A 32-bit value is written as `[v / 65536, v % 65536]`. |
| Codec.WordsToBytes | src/protocol.rs:31-35 | Flattening words into big-endian bytes gives exactly two bytes per word. |
| Codec.ToBeBytes | src/protocol.rs:44 | `to_be_bytes` of an `n`-byte value gives exactly `n` bytes. |
| Codec.BytesToWords | src/protocol.rs:45-50 | Pairing bytes into big-endian words gives one word per two bytes. |
| Codec.ValueRoundTrip | src/protocol.rs:29-52 | Decoding an encoded value gives the value back. |
| Codec.WordsRoundTrip | src/protocol.rs:29-52 | Re-encoding a decoded value gives the same words. |
| Float32.ToUnsigned | src/protocol.rs:122-125 | The saturating `as u8` result is below 256, and the `as u16` result is below 65536. |
| Float32.FromNat | src/protocol.rs:128 | `n as f32` for `n` below 2^24 is a non-negative pattern: the sign bit is clear. |
| Float32.ToUnsignedFromNat | src/protocol.rs:122-130 | `(n as f32) as uN == n` for every `n < 2^N`: the decoder's cast undoes the encoder's cast. |
| Float32.FromNatInjective | src/protocol.rs:127-130 | Two integers below 2^24 have the same `f32` pattern if and only if they are equal. |
| Float32.FromNatNotEquals | src/protocol.rs:73-80 | The pattern of `m` is not float-equal to any other integer, so a `n.0 =>` arm accepts no other code's pattern. |
| Protocol.MatchArms | src/protocol.rs:73-80 | A float `match` fails, with `InvalidValue`, exactly when no arm's literal equals the pattern. Otherwise it returns the value of an arm whose literal equals it. |
| Protocol.Arms | src/protocol.rs:159-166 | Every arm of an enumeration decoder has an exactly representable literal and yields a value of that decoder's own register. |
| Protocol.Code | src/protocol.rs:82-88 | Every code an encoder writes is an integer below 2^24, so `as f32` represents it exactly. |
| Protocol.DecodeEnumeration | src/protocol.rs:159-166 | An enumeration decoder returns a value of its own register. It fails with `WordsCountError` on a wrong word count and with `InvalidValue` otherwise. |
| Protocol.DecodePulseWidth | src/protocol.rs:122-125 | Fails, with `WordsCountError`, exactly when the words are not two. |
| Protocol.DecodeAddress | src/protocol.rs:265-268 | Fails, with `WordsCountError`, exactly when the words are not two. It does not check the range. |
| Protocol.DecodePassword | src/protocol.rs:375-378 | Fails, with `WordsCountError`, exactly when the words are not two. |
| Protocol.DecodeBaudRateCode | src/protocol.rs:445-448 | Fails, with `WordsCountError`, exactly when the words are not two. |
| Protocol.DecodeAutoScrollTime | src/protocol.rs:508-511 | Fails, with `WordsCountError`, exactly when the words are not two. |
| Protocol.DecodeAutoScrollTimeSeconds | src/protocol.rs:518-521 | Fails, with `WordsCountError`, exactly when the words are not two. |
| Protocol.DecodeBacklightTime | src/protocol.rs:565-572 | Fails, with `WordsCountError`, exactly when the words are not two. Any other value is accepted. |
| Protocol.DecodeSerialNumber | src/protocol.rs:678-681 | Fails, with `WordsCountError`, exactly when the words are not two. |
| Protocol.DecodeMeterCode | src/protocol.rs:705-708 | Fails, with `WordsCountError`, exactly when the words are not one. |
| Protocol.DecodeSoftwareVersion | src/protocol.rs:732-735 | Fails, with `WordsCountError`, exactly when the words are not one. |
| Protocol.Decode | src/tokio_sync.rs:53-56 | A value decoded for register `r` belongs to `r`. A wrong word count fails with `WordsCountError`. |
| Protocol.Encode | src/protocol.rs:127-130 | An encoded setting has exactly its register's QUANTITY words. |
| Protocol.SettingParam | src/protocol.rs:19-26 | Every writable register is a two-word `f32` at its own address. |
| Protocol.ParamOf | src/protocol.rs:67-731 | Each holding register's `ModbusParam` impl: `QUANTITY` is its `ProtocolType`'s width in words, and the type is `f32` exactly for the setting registers (the identity registers are integers). |
| Protocol.EncodeKppa | src/protocol.rs:168-170 | The words of the KPPA write read back, on the password register, as the password itself. |
| Protocol.EncodeResetHistoricalData | src/protocol.rs:664-667 | The reset writes `[0x0003]`, which is the descriptor's QUANTITY of words. |
| Protocol.PulseWidthTryFrom | src/protocol.rs:132-138 | Accepts every `u16` and keeps it as the code. |
| Protocol.AddressTryFrom | src/protocol.rs:275-285 | Accepts exactly 1..=247 and keeps the value. A rejection is `AddressOutOfRange(value)`. |
| Protocol.PasswordTryFrom | src/protocol.rs:385-395 | Accepts exactly 0..=9999 and keeps the value. A rejection is `PasswordOutOfRange(value)`. |
| Protocol.AutoScrollTimeTryFrom | src/protocol.rs:523-533 | Accepts exactly 0..=60 and keeps the value. A rejection is `AutoScrollTimeOutOfRange(value)`. |
| Protocol.BacklightTimeTryFrom | src/protocol.rs:586-596 | Accepts exactly 0..=121, keeping the value as its code: `Delayed` only for 1..=120. A rejection is `BacklitTimeOutOfRange(value)`. |
| Protocol.BaudRateTryFrom | src/protocol.rs:450-462 | Accepts exactly 1200, 2400, 4800, 9600 and 19200, and each accepted rate converts back to the same `u16`. A rejection is `InvalidBaudRate`. |
| Protocol.BaudRateToU16 | src/protocol.rs:464-474 | Every baud rate converts to one of 1200, 2400, 4800, 9600 and 19200. |
| Protocol.SubsetRange | src/protocol.rs:819-824 | The range of parameter `p` in a response starting at `offset` begins at `ADDRESS - offset` and is `QUANTITY` long. |
| Protocol.Subset | src/protocol.rs:830-838 | The slice cut for `p` has exactly `QUANTITY` words. |
| Protocol.DecodeMeasurement | src/protocol.rs:808-811 | Succeeds exactly on two words. The value is their pattern: re-encoding it gives the same words. |
| Protocol.MeasurementAddress | src/protocol.rs:851-894 | Every input register address is even and lies in one of the four blocks 0x0000-0x004A, 0x00C8-0x00E0, 0x0156-0x018C and 0x0500-0x0502. |
| Protocol.MeasurementParam | src/protocol.rs:794-798 | Every measurement is one well-formed `f32` parameter. |
| ProtocolProperties.RegisterDescriptorsWellFormed | src/protocol.rs:19-26 | Every descriptor's QUANTITY is its wire width in words: 1 for the `u16` identity registers, 2 otherwise. This includes `ResetHistoricalData`. |
| ProtocolProperties.RegisterAddressesDistinct | src/protocol.rs:19-26 | Two holding registers share an address if and only if they are the same register. |
| Protocol.F32WordsDecode | src/protocol.rs:29-52 | The words written for `n as f32` decode to the pattern of `n`. |
| Protocol.F32Words | src/protocol.rs:127-130 | An encoder writes `n as f32` as two words; `Protocol.F32WordsDecode` proves they decode to the pattern of `n`. |
| Protocol.Pattern | src/protocol.rs:29-39 | The bit pattern decoded from a register's words fits its wire type and re-encodes to those same words. |
| ProtocolProperties.EqualsWords | src/protocol.rs:73-80 | Arm `n.0` accepts exactly the words of `n as f32`, plus the words of -0.0 when `n` is 0. |
| ProtocolProperties.PulseWidthRoundTrip | src/protocol.rs:122-130 | Every pulse width is read back as itself. |
| ProtocolProperties.PulseWidthDecodeOfCode | src/protocol.rs:122-125 | The pattern of `n` decodes as a width of `n`. |
| ProtocolProperties.AddressRoundTrip | src/protocol.rs:265-273 | Every address is read back as itself. |
| ProtocolProperties.AddressDecodeOfCode | src/protocol.rs:265-268 | The pattern of `n` decodes as address `n`. |
| ProtocolProperties.PasswordRoundTrip | src/protocol.rs:375-383 | Every password is read back as itself. |
| Protocol.PasswordDecodeOfCode | src/protocol.rs:375-378 | The pattern of `n` decodes as password `n`. |
| ProtocolProperties.AutoScrollTimeRoundTrip | src/protocol.rs:508-516 | Every auto-scroll time is read back as itself. |
| ProtocolProperties.AutoScrollTimeDecodeOfCode | src/protocol.rs:508-511 | The pattern of `n` decodes as `n` seconds. |
| ProtocolProperties.DelayedRoundTrip | src/protocol.rs:565-581 | `Delayed(n)` is read back as itself for every `n` other than 0 and 121. |
| ProtocolProperties.EnumerationRoundTrip | src/protocol.rs:73-88 | An enumeration value stored as the pattern of its code is read back as itself. |
| ProtocolProperties.SettingRoundTrip | src/tokio_sync.rs:53-70 | Every writable value is read back as itself, except the two sentinel collisions. |
| ProtocolProperties.BacklightDecodeOfCode | src/protocol.rs:565-572 | The pattern of a `u8` `n` decodes to `AlwaysOn` for 0, to `AlwaysOff` for 121, and to `Delayed(n)` otherwise. |
| ProtocolProperties.BacklightReadOfDelayed | src/protocol.rs:565-581 | A written `Delayed(n)` reads back as `AlwaysOn` for 0, as `AlwaysOff` for 121, and as `Delayed(n)` otherwise. |
| ProtocolProperties.DelayedZeroReadsAlwaysOn | src/protocol.rs:565-581 | A hand-built `Delayed(0)` reads back as `AlwaysOn`. |
| ProtocolProperties.DelayedPastMaxReadsAlwaysOff | src/protocol.rs:565-581 | A hand-built `Delayed(121)` reads back as `AlwaysOff`. |
| ProtocolProperties.SentinelsShareWords | src/protocol.rs:574-581 | `AlwaysOn` is written with the same words as `Delayed(0)`, and `AlwaysOff` with the same words as `Delayed(121)`. |
| ProtocolProperties.SameCodeSameWords | src/protocol.rs:127-130 | Two values with the same code are written with the same words: the encoders write nothing but the code `as f32`. |
| ProtocolProperties.SentinelRoundTrip | src/protocol.rs:565-581 | `AlwaysOn` and `AlwaysOff` are read back as themselves. |
| ProtocolProperties.BacklightTimeRoundTrip | src/protocol.rs:565-581 | A backlight time round-trips if and only if it is neither `Delayed(0)` nor `Delayed(121)`. |
| ProtocolProperties.PulseWidthConstructedRoundTrip | src/protocol.rs:132-138 | Every pulse width `try_from` builds round-trips. |
| ProtocolProperties.AddressConstructedRoundTrip | src/protocol.rs:275-285 | Every address `try_from` accepts round-trips. |
| ProtocolProperties.PasswordConstructedRoundTrip | src/protocol.rs:385-395 | Every password `try_from` accepts round-trips. |
| ProtocolProperties.AutoScrollTimeConstructedRoundTrip | src/protocol.rs:523-533 | Every auto-scroll time `try_from` accepts round-trips. |
| ProtocolProperties.BacklightTimeConstructedRoundTrip | src/protocol.rs:586-596 | Every backlight time `try_from` builds round-trips. |
| ProtocolProperties.ArmOf | src/protocol.rs:73-88 | Every enumeration value has an arm in its decoder, carrying the value's code. |
| ProtocolProperties.ArmsAgreeWithEncoder | src/protocol.rs:206-225 | In every code table, each decoder arm's literal is the encoder's code for that arm's value, and no literal appears twice. |
| ProtocolProperties.EqualsFunctional | src/protocol.rs:73-80 | A pattern is float-equal to at most one integer below 2^24. |
| ProtocolProperties.MatchArmsTakesMatchingArm | src/protocol.rs:73-80 | With distinct literals, the arm whose literal matches is the one taken. |
| ProtocolProperties.DecodeEnumerationRegister | src/protocol.rs:317-326 | Two words of an enumeration register are matched as one `f32` against its arms. |
| ProtocolProperties.MatchingCodeDecodes | src/protocol.rs:625-632 | Two words whose pattern float-equals `v`'s code decode as `v`. |
| ProtocolProperties.DecodedCodeMatches | src/protocol.rs:625-632 | Two words that decode as `v` have a pattern float-equal to `v`'s code. |
| ProtocolProperties.EnumerationDecodePair | src/protocol.rs:625-642 | Two words decode as `v` if and only if their pattern float-equals `v`'s code. |
| ProtocolProperties.EnumerationDecodeExact | src/protocol.rs:159-166 | An enumeration register reads as `v` if and only if its words are the pattern of `v`'s code, or -0.0 when that code is 0. |
| ProtocolProperties.EnumerationRejectsUnlisted | src/protocol.rs:422-431 | With two words, an enumeration decoder fails, always with `InvalidValue`, exactly when the pattern equals none of its literals. |
| ProtocolProperties.DecodeFailures | src/protocol.rs:31-37 | A wrong word count always fails, with `WordsCountError`. With the right count, only an enumeration register can fail, and then with `InvalidValue`. |
| ProtocolProperties.BaudRateTableTwoWay | src/protocol.rs:450-474 | `TryFrom<u16>` undoes `u16::from` on every baud rate. |
| ProtocolProperties.BaudRateWireCodes | src/protocol.rs:422-443 | The wire codes are 1200 to 5, 2400 to 0, 4800 to 1, 9600 to 2 and 19200 to 3. |
| ProtocolProperties.BaudRateDecodeIsWireCode | src/protocol.rs:445-448 | `BaudRate::decode` of a written rate gives the rate's wire code (5 for 1200, then 0, 1, 2 and 3), not the rate. |
| ProtocolProperties.AutoScrollTimeDecodeSeconds | src/protocol.rs:518-521 | `AutoScrollTime::decode` of a written time gives its seconds. |
| ProtocolProperties.AddressDecodeUnchecked | src/protocol.rs:265-268 | A stored 0.0 reads as `Address(0)`, which `try_from` refuses. |
| ProtocolProperties.MeasurementAtAddress | src/protocol.rs:851-894 | Each measurement is the only input register at its address. |
| ProtocolProperties.MeasurementRangesDisjoint | src/protocol.rs:851-894 | The two-word ranges of two distinct measurements never overlap. |
| Batch.SettingsSliceInBounds | src/tokio_sync.rs:142-144 | Every batched register lies inside the settings batch `0x000A..0x0057`. |
| Batch.SettingsSlicesDisjoint | src/tokio_sync.rs:154-209 | Distinct batched registers occupy disjoint ranges of the response. |
| Batch.SettingsSlice | src/protocol.rs:830-838 | A register cut from the batch has its own QUANTITY of words. |
| Batch.DecodeFields | src/tokio_sync.rs:154-209 | The decoded fields are one per register, and each belongs to its register. |
| Batch.Field | src/tokio_sync.rs:154-209 | The `AllSettings` field that holds register `r` holds a value of `r`. |
| Batch.Settings | src/tokio_sync.rs:154-209 | Each field of the record holds the value decoded for it, and the identity fields hold the values read. |
| Batch.DecodeFieldsSuccess | src/tokio_sync.rs:154-209 | Each decoded field is what its register's decoder makes of its slice. |
| Batch.DecodeFieldsFailure | src/tokio_sync.rs:154-209 | Decoding fails if and only if some field's decoder fails, and then with `InvalidValue`. |
| Batch.FieldFailure | src/tokio_sync.rs:154-209 | A batched field can fail to decode only if it is an enumeration, and then with `InvalidValue`. |
| Batch.DecodeAllSettingsFields | src/tokio_sync.rs:154-209 | Every field of a decoded `AllSettings` is its register's decoding of its slice. |
| Batch.DecodeAllSettingsFailure | src/tokio_sync.rs:154-209 | Decoding the batch fails if and only if an enumeration field holds an unlisted code. |
| Batch.DecodeAllSettings | src/tokio_sync.rs:154-209 | The identity values read one by one are carried into `AllSettings` unchanged. A failure is `InvalidValue`. |
| Batch.MeasurementListed | src/tokio_sync.rs:257-467 | Every measurement appears among the fields `read_all` fills in. |
| Batch.BatchOf | src/tokio_sync.rs:230-255 | Every measurement is assigned to one of the four batches. |
| Batch.InputBatches | src/tokio_sync.rs:230-255 | Each input batch starts at its first register's address and spans its last register's address minus the offset plus that register's QUANTITY. |
| Batch.MeasurementInBatch | src/tokio_sync.rs:230-255 | Every measurement's two words lie inside its batch's range. |
| Batch.MeasurementSlicesDisjoint | src/tokio_sync.rs:257-467 | Fields cut from the same batch occupy disjoint ranges of the response. |
| Batch.Slice | src/protocol.rs:842-849 | A measurement's slice has two words. |
| Batch.DecodeReadingsFields | src/tokio_sync.rs:257-467 | The readings hold exactly the listed measurements, each one the pattern of its own slice. |
| Batch.DecodeAllValuesReadings | src/tokio_sync.rs:257-467 | Every measurement's reading in `AllValues` is the pattern of that measurement's slice of its batch. |
| Batch.AllMeasurementsListed | src/tokio_sync.rs:257-467 | The decoding order lists every measurement. |
| Batch.DecodeAllValues | src/tokio_sync.rs:257-467 | The decoded `AllValues` holds a reading for every measurement. |
| Session.Lift | src/tokio_sync.rs:56 | `?` keeps a success and wraps a protocol error as `Error::Protocol`. |
| Session.Schedule | src/tokio_sync.rs:147-152 | The request sequence the schedule logs is exactly the given requests, with a pause between two of them and none after the last. |
| Session.FirstFailure | src/tokio_sync.rs:233-255 | All requests before the position are answered, and the request at the position is not. |
| Session.ReadHoldingRun | src/tokio_sync.rs:53-56 | A value read for register `r` belongs to `r`. |
| Session.HoldingRead | src/tokio_sync.rs:53-55 | `read_holding!` asks the holding table at the register's `ADDRESS` for exactly as many words as its type is wide. |
| Session.InputRead | src/tokio_sync.rs:230-255 | Each batch of `read_all` is an input read of 1 to 125 registers within the address space, ending before the next batch begins. |
| Session.WriteRun | src/tokio_sync.rs:67-71 | A write sends exactly its one request. It succeeds if and only if the request is not lost and the meter has every holding register it covers. |
| Session.SetHoldingRun | src/tokio_sync.rs:63-75 | `write_holding!` sends one write at the value's register. Its words read back as the value unless the value is one of the two sentinel collisions. |
| Session.SetKppaRun | src/tokio_sync.rs:86-94 | `set_kppa` sends one write at the KPPA register, of words that read as the password on the password register. |
| Session.ResetRun | src/tokio_sync.rs:114-119 | `reset_historical_data` sends one write of the reset parameter's quantity of words. It succeeds if and only if the request is not lost and the meter has the reset register. |
| Session.RequestsOnTheWire | src/tokio_sync.rs:142-152 | `read_all_settings` reads (0x000A,78), (0xFC00,2), (0xFC02,1) and (0xFC84,1). `read_all` reads (0x0000,76), (0x00C8,26), (0x0156,56) and (0x0500,4). |
| Session.WritesOnTheWire | src/tokio_sync.rs:86-94 | `set_kppa` writes two words at 0x000E, not at 0x0018. Reset writes `[0x0003]` at 0xF010. `set_address` writes two words at 0x0014. |
| Session.SettingsReads | src/tokio_sync.rs:142-152 | A successful batch response has the batch's 78 words. |
| Session.ReadAllSchedule | src/tokio_sync.rs:233-255 | `read_all` sends the four batches in order with one pause between two of them, up to and including the first failed request. It fails if and only if a request fails, and then with that request's error. |
| Session.ReadAllResponses | src/tokio_sync.rs:233-255 | A successful `read_all` received each batch's block of input registers, and returns their decoding. |
| Session.SliceOfBlocks | src/tokio_sync.rs:257-467 | A measurement's words, cut from its batch's block, are the two words at its own address. |
| Session.ReadAllValues | src/tokio_sync.rs:226-468 | A successful `read_all` returns, for every measurement, the pattern stored at that measurement's own address. |
| Session.IdentityReadFailure | src/protocol.rs:678-736 | Reading an identity register fails if and only if the device does not answer, and then with the device's error. |
| Session.IdentityAnswersDecode | src/tokio_sync.rs:148-152 | An answered identity read always decodes. |
| Session.SettingsReadsSchedule | src/tokio_sync.rs:142-152 | The batch and the three identity reads are sent in order, with a pause before each identity read, up to and including the first failed request. The reads fail if and only if a request fails, and then with that request's error. |
| Session.ReadAllSettingsSchedule | src/tokio_sync.rs:138-210 | The same schedule for all of `read_all_settings`. Its decoding sends nothing, and a failed request is its result. When all four requests are answered, it fails if and only if a code-table field of the batch holds no known code. |
| Session.ReadAllSettingsRun | src/tokio_sync.rs:138-210 | `read_all_settings` starts with the settings batch read. A successful run sends four reads with three pauses: seven events. |
| Session.ReadAllRun | src/tokio_sync.rs:226-468 | `read_all` starts with the first input batch read. A successful run sends four reads with three pauses and holds a reading for every measurement. |
| Session.SettingsReadsValues | src/tokio_sync.rs:142-152 | Successful reads return the stored 78-word block and the decoded identity answers. |
| Session.IdentityFieldRead | src/tokio_sync.rs:120-122 | An identity field of `read_all_settings` equals what a single read of that register returns. |
| Session.ReadAllSettingsDecoding | src/tokio_sync.rs:154-209 | Once all four requests are answered, `read_all_settings` fails if and only if an enumeration field holds an unlisted code, and then with `Protocol(InvalidValue)`. |
| Session.BatchedFieldRead | src/tokio_sync.rs:53-56 | A field cut from the batch decodes exactly as a single read of that register. |
| Session.ReadAllSettingsFields | src/tokio_sync.rs:138-210 | Every field `read_all_settings` returns equals what a single, delivered read of that register returns, with memory unchanged. |
| Session.StoreContents | src/tokio_sync.rs:67-70 | After a store, the written words are at their addresses and every other register is unchanged. |
| Session.StoreBlock | src/tokio_sync.rs:67-70 | The block read back at the written address is the words written. |
| Session.ReadHoldingReadBack | src/tokio_sync.rs:53-56 | A register holding the code of `s` reads back as `s`, unless `s` is a sentinel collision. |
| Session.SetThenRead | src/tokio_sync.rs:63-75 | A setter sends one write at its register. A meter that stores it answers a later read of the register with the value written. |
| Transport.Answer | src/tokio_sync.rs:54-55 | A successful read answer carries exactly the quantity of words requested. |
| Transport.WriteResult | src/tokio_sync.rs:67-70 | A write succeeds if and only if the request is delivered and the registers exist. Otherwise it fails with the transport error or exception 2. |
| Transport.Context.Exchange | src/tokio_sync.rs:55-56 | One request is logged and answered as the device answers it. |
| Transport.Context.ReadHoldingRegisters | src/tokio_sync.rs:55-56 | Logs one holding read and returns the device's answer. |
| Transport.Context.ReadInputRegisters | src/tokio_sync.rs:233 | Logs one input read and returns the device's answer. |
| Transport.Context.WriteMultipleRegisters | src/tokio_sync.rs:67-70 | Logs one write and returns its outcome. |
| Transport.Context.Sleep | src/tokio_sync.rs:147 | Logs one pause and sends nothing. |
| Transport.Context.SetSlave | src/tokio_sync_safe_client.rs:107 | Later requests are addressed to the new slave id. |
| TokioSync.ReadHolding | src/tokio_sync.rs:49-60 | Logs one read of the register and returns its decoding. |
| TokioSync.SetHolding | src/tokio_sync.rs:63-75 | Logs one write of the value's code at its register and returns the write's outcome. |
| TokioSync.SetKppa | src/tokio_sync.rs:86-94 | Logs one write of the password at KPPA and returns the write's outcome. |
| TokioSync.ResetHistoricalData | src/tokio_sync.rs:114-119 | Logs one write of the reset code and returns the write's outcome. |
| TokioSync.PauseThenRead | src/tokio_sync.rs:147-148 | Logs a pause followed by one read, and returns the device's answer. |
| TokioSync.ReadAllSettings | src/tokio_sync.rs:138-210 | Logs the events and returns the result of `read_all_settings`' run. Its schedule and fields are proved by the `Session` lemmas. |
| TokioSync.ReadAll | src/tokio_sync.rs:226-468 | Logs the events and returns the result of `read_all`'s run. Its schedule and values are proved by the `Session` lemmas. |
| TokioSyncClient.Sdm72.constructor | src/tokio_sync_client.rs:56-58 | `SDM72::new` keeps the context it is given. |
| TokioSyncClient.Sdm72.ReadHolding | src/tokio_sync_client.rs:25-37 | Same as `TokioSync.ReadHolding` on the client's context. |
| TokioSyncClient.Sdm72.SetHolding | src/tokio_sync_client.rs:40-52 | Same as `TokioSync.SetHolding` on the client's context. |
| TokioSyncClient.Sdm72.SetKppa | src/tokio_sync_client.rs:77-82 | Same as `TokioSync.SetKppa` on the client's context. |
| TokioSyncClient.Sdm72.ResetHistoricalData | src/tokio_sync_client.rs:102-107 | Same as `TokioSync.ResetHistoricalData` on the client's context. |
| TokioSyncClient.Sdm72.ReadAllSettings | src/tokio_sync_client.rs:122-191 | Same as `TokioSync.ReadAllSettings` on the client's context. |
| TokioSyncClient.Sdm72.ReadAll | src/tokio_sync_client.rs:203-442 | Same as `TokioSync.ReadAll` on the client's context. |
| TokioAsyncClient.Sdm72.constructor | src/tokio_async_client.rs:42-44 | `SDM72::new` keeps the context it is given. |
| TokioAsyncClient.Sdm72.ReadHolding | src/tokio_async_client.rs:13-24 | Same as `TokioSync.ReadHolding` on the client's context. |
| TokioAsyncClient.Sdm72.SetHolding | src/tokio_async_client.rs:26-37 | Same as `TokioSync.SetHolding` on the client's context. |
| TokioAsyncClient.Sdm72.SetKppa | src/tokio_async_client.rs:51-59 | Same as `TokioSync.SetKppa` on the client's context. |
| TokioAsyncClient.Sdm72.ResetHistoricalData | src/tokio_async_client.rs:76-84 | Same as `TokioSync.ResetHistoricalData` on the client's context. |
| TokioAsyncClient.Sdm72.ReadAllSettings | src/tokio_async_client.rs:94-163 | Same as `TokioSync.ReadAllSettings` on the client's context. |
| TokioAsyncClient.Sdm72.ReadAll | src/tokio_async_client.rs:170-409 | Same as `TokioSync.ReadAll` on the client's context. |
| TokioSyncSafeClient.SafeClient.constructor | src/tokio_sync_safe_client.rs:70-79 | `new` and `from_shared_context` hold the context given, shared with whoever else holds it. |
| TokioSyncSafeClient.SafeClient.SharedContext | src/tokio_sync_safe_client.rs:82-84 | `shared_context` returns this client's own context object, not a copy. |
| TokioSyncSafeClient.SafeClient.ReadHolding | src/tokio_sync_safe_client.rs:44-54 | Forwards to `TokioSync.ReadHolding` on the shared context and leaves the slave id alone. |
| TokioSyncSafeClient.SafeClient.SetHolding | src/tokio_sync_safe_client.rs:56-66 | Forwards to `TokioSync.SetHolding` on the shared context and leaves the slave id alone. |
| TokioSyncSafeClient.SafeClient.SetKppa | src/tokio_sync_safe_client.rs:95-98 | Forwards to `TokioSync.SetKppa` on the shared context and leaves the slave id alone. |
| TokioSyncSafeClient.SafeClient.SetAddress | src/tokio_sync_safe_client.rs:104-109 | Writes the address at 0x0014 to the old slave id. The slave id becomes the new address if and only if the write succeeded, and the write's error is returned unchanged. |
| TokioSyncSafeClient.SafeClient.ResetHistoricalData | src/tokio_sync_safe_client.rs:127-130 | Forwards to `TokioSync.ResetHistoricalData` on the shared context and leaves the slave id alone. |
| TokioSyncSafeClient.SafeClient.ReadAllSettings | src/tokio_sync_safe_client.rs:137-140 | Forwards to `TokioSync.ReadAllSettings` on the shared context and leaves the slave id alone. |
| TokioSyncSafeClient.SafeClient.ReadAll | src/tokio_sync_safe_client.rs:143-146 | Forwards to `TokioSync.ReadAll` on the shared context and leaves the slave id alone. |
| TokioSyncSafeClient.SharedRetarget | src/tokio_sync_safe_client.rs:77-84 | A client made from `shared_context` shares the context. After a successful `set_address` through one client, the other client's next read goes to the new address; after a failed one, it still goes to the old address. |
| TokioAsyncSafeClient.SafeClient.constructor | src/tokio_async_safe_client.rs:76-88 | `new` and `from_shared` hold the context given, shared with whoever else holds it. |
| TokioAsyncSafeClient.SafeClient.SharedContext | src/tokio_async_safe_client.rs:94-96 | `clone_shared` returns this client's own context object, not a copy. |
| TokioAsyncSafeClient.SafeClient.ReadHolding | src/tokio_async_safe_client.rs:46-56 | Forwards to the `tokio_async` client's `read_holding!`, modelled as `TokioSync.ReadHolding`, on the shared context and leaves the slave id alone. |
| TokioAsyncSafeClient.SafeClient.SetHolding | src/tokio_async_safe_client.rs:58-68 | Forwards to the `tokio_async` client's `write_holding!`, modelled as `TokioSync.SetHolding`, on the shared context and leaves the slave id alone. |
| TokioAsyncSafeClient.SafeClient.SetKppa | src/tokio_async_safe_client.rs:107-110 | Forwards to `set_kppa` on the shared context and leaves the slave id alone. |
| TokioAsyncSafeClient.SafeClient.SetAddress | src/tokio_async_safe_client.rs:116-121 | Writes the address at 0x0014 to the old slave id, and calls `set_slave` with the new address if and only if the write succeeded. |
| TokioAsyncSafeClient.SafeClient.ResetHistoricalData | src/tokio_async_safe_client.rs:139-142 | Forwards to `reset_historical_data` on the shared context and leaves the slave id alone. |
| TokioAsyncSafeClient.SafeClient.ReadAllSettings | src/tokio_async_safe_client.rs:149-152 | Forwards to `read_all_settings` on the shared context and leaves the slave id alone. |
| TokioAsyncSafeClient.SafeClient.ReadAll | src/tokio_async_safe_client.rs:155-158 | Forwards to `read_all` on the shared context and leaves the slave id alone. |
| TokioAsyncSafeClient.SharedRetarget | src/tokio_async_safe_client.rs:86-96 | A client made from `clone_shared` shares the context, so a retarget through one client is seen by the other. |
| App.MinimumRtuDelay | src/main.rs:105-117 | The result is never below 1750 µs, and it is exactly 1750 µs if and only if 3.5 character times of 11 bits at the rate are under 2 ms. Otherwise it is a whole number of milliseconds: the floor of those 3.5 character times. |
| App.MinimumRtuDelayValues | src/main.rs:455-462 | 32, 16, 8, 4 and 2 ms at 1200, 2400, 4800, 9600 and 19200 baud. The 1750 µs floor never applies at these rates. |
| App.CheckRtuDelay | src/main.rs:119-129 | The result is the larger of the delay and the rate's minimum. |
| App.CheckRtuDelayIdempotent | src/main.rs:119-129 | A delay at or above the minimum passes unchanged, so checking twice is checking once. |
| App.EffectiveDelay | src/main.rs:155-183 | A TCP connection keeps the user's delay. An RTU line raises it to the rate's minimum. |
| App.AuthorizationGate | src/main.rs:131-146 | The gate reads KPPA first. A failed read ends it with that error and no write. `Authorized` ends it with no write. `NotAuthorized` leads to one write of the password at 0x000E, whose outcome is the gate's. |
| App.AuthorizationRun | src/main.rs:131-146 | The gate sends one or two requests, and the second, when sent, is the KPPA write of the password. |
| App.AuthorizationReadsFirst | src/main.rs:132 | The gate's first request is the two-word read of KPPA at 0x000E. |
| App.EnsureAuthorization | src/main.rs:131-146 | Logs the gate's events and returns its result. |
| App.CommandWrite | src/main.rs:359-445 | Each writing command exists for exactly one write request. |
| App.CommandRun | src/main.rs:359-445 | A command that succeeds has sent its own write last. |
| App.Gated | src/main.rs:363-445 | `ensure_authorization(&mut d)?` before a write: a failed gate is the command's whole run, the gate's requests always come first, and the command succeeds only if the gate passed, with the write's outcome. |
| App.CommandWriteRun | src/main.rs:359-445 | The client call of each command sends that command's write. |
| App.GatedCommandsAuthorizeFirst | src/main.rs:363-445 | Every `Set*` command and `ResetHistoricalData` first reads KPPA. When the gate fails, the command ends with the gate's run. Otherwise the command's own write is its last request, and the write's outcome is the command's. |
| App.GatedWriteAfterAuthorization | src/main.rs:363-367 | The same, for any write behind the gate. |
| App.PasswordCommandWritesDirectly | src/main.rs:359-362 | The `Password` command writes KPPA at once, with no read first. |
| App.WriteCommand | src/main.rs:363-445 | Logs the command's write and returns its outcome. |
| App.GatedWrite | src/main.rs:363-445 | After the gate, the write is sent if and only if the gate passed. |
| App.RunGatedCommand | src/main.rs:363-445 | Logs the events and returns the result of the gate followed by the command's write. |
| App.RunCommand | src/main.rs:359-445 | Logs the events and returns the result of the command's run. |
| App.PollPause | src/main.rs:215 | `delay.max(poll_interval)`: at least both, and equal to one of them. |
| App.ReadAllPollRequests | src/main.rs:206-209 | A poll sends the batches up to the first failure, and all four when it succeeds. |
| App.DaemonProgress | src/main.rs:205-216 | After a failed poll the daemon stops. Each successful poll adds the four batch reads and ends with the pause `delay.max(poll_interval)`. |
| App.PollOnce | src/main.rs:206-215 | One pass of the loop: `read_all`, then the pause only if the read succeeded. |
| App.PollStep | src/main.rs:205-216 | One more pass keeps the loop invariant: the log and the result are those of the first polls. |
| App.Daemon | src/main.rs:205-216 | The loop's log and result are those of its first polls. |
| App.DaemonRun | src/main.rs:205-216 | `k` successful polls give `k` readings, and the last thing a successful run with a poll does is the pause `max(delay, poll_interval)`. |
| Polling.Polls | src/main.rs:205-216 | A loop that has not failed has exactly one value per poll. |
| Polling.PollsLast | src/main.rs:205-216 | The `k`-th poll adds nothing after a failure. Otherwise it adds its events, the pause when it succeeded, and its value or its error. |
| Polling.PollsStop | src/main.rs:207-208 | After the first failed poll, later polls change nothing. |
| Polling.PollsProgress | src/main.rs:205-216 | Each successful poll adds the requests every successful poll sends and ends with the pause. |
| Polling.PollsExtend | src/main.rs:205-216 | One more poll, written after the log of the first `i` polls, gives the log of the first `i + 1`. |

## Left out

- The MQTT daemon mode, logging, printing and JSON output of `main`. These are broker I/O, formatting and console output.
- Command-line parsing. Its `parse_*` helpers wrap the `TryFrom` constructors, which are modelled.
- The two read-only commands `ReadAll` and `ReadAllSettings` of `main`. They only call the modelled client operations and print the result.
- Interactive password entry in `ensure_authorization`. The password typed in is a parameter.
- Timeouts (`set_timeout`, `timeout`), mutex locking, `async`/`await`, and the real duration of a pause. A pause is one logged event carrying its duration.
- The meter's reasons for refusing a write. The modelled meter refuses a write only through a lost request (the transport error) or a missing register (exception 2, illegal data address). The exception a real meter returns for a write that KPPA has not authorized is not expressible; the gate lemmas are stated for any write outcome.
- The meter's reaction to writes. A write does not change what the modelled meter answers later. `Session.SetThenRead` states what a meter that stores the write would answer.
- A response shorter than requested. The modelled meter answers a read with exactly the words requested. In the source, a short response makes slicing panic.
- The numeric meaning of measurement floats, and `f32round` for display. Measurements are kept as their 32-bit patterns.
- `anyhow` context strings and the text of errors. Errors are the variants only.
- The `tokio_async` module is not part of this model. `TokioAsyncSafeClient` assumes it has the shape of `src/tokio_sync.rs`, and forwards to `TokioSync`.
- App.Daemon: models the first `polls` polls of the endless stdout loop, not the loop running forever.
- App.MinimumRtuDelay: computed with exact integer arithmetic, as the floor of 38500 / rate milliseconds. The source computes with `f64` and `Duration`, whose rounding is not modelled.
- Float32.ToUnsigned: its contract states only the bounds of the cast. Its value on the patterns the encoders produce is `Float32.ToUnsignedFromNat`.
