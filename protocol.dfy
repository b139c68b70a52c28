/**
 * The register protocol of the SDM72 meter (src/protocol.rs): one descriptor
 * per parameter, the value types with their code tables and range-checked
 * constructors, and the table of measurement (input) registers.
 *
 * The `read_holding!`/`write_holding!` macros of the clients are generic over
 * the holding-register types; here that genericity is a `Register` tag and a
 * `RegisterValue` sum over the value types, with `Decode` and `Encode`
 * dispatching to each type's own decoder and code table.
 */
module Protocol {
  import opened Wrappers
  import opened Words
  import opened Errors
  import opened Codec
  import F = Float32

  /** `ModbusParam` (protocol.rs:19-26): address, word quantity, wire type. */
  datatype Param = Param(address: U16, quantity: U16, wire: WireType)

  /** The descriptor invariant: the words hold exactly the wire type's bytes. */
  predicate WellFormed(p: Param)
  {
    2 * p.quantity == Width(p.wire)
  }

  /** The bit pattern carried by a register's words, once they have the right count. */
  function Pattern(t: WireType, ws: seq<Word>): (v: U32)
    requires 2 * |ws| == Width(t)
    ensures v < Limit(t) && ValueToWords(t, v) == ws
  {
    WordsRoundTrip(t, ws);
    WordsToValue(t, ws).value
  }

  /** The words written for the integer `n` held as `f32` (`n as f32`, then encoded). */
  function F32Words(n: nat): (ws: seq<Word>)
    requires n < F.ExactLimit
    ensures |ws| == 2
  {
    ValueToWords(F32, F.FromNat(n))
  }

  /** The pattern of -0.0 as register words: the `0.0 =>` match arms accept it too. */
  const NegativeZeroWords: seq<Word> := [0x8000, 0x0000]

  // ---------------------------------------------------------------------------
  // Value types (protocol.rs:54-747)

  datatype SystemType = Type1P2W | Type3P4W
  datatype PulseWidth = PulseWidth(millis: U16)
  datatype Kppa = NotAuthorized | Authorized
  datatype ParityAndStopBit =
    NoParityOneStopBit | EvenParityOneStopBit | OddParityOneStopBit | NoParityTwoStopBits
  datatype Address = Address(id: U8)
  datatype PulseConstant = PC1000 | PC100 | PC10 | PC1
  datatype Password = Password(pin: U16)
  datatype BaudRate = B1200 | B2400 | B4800 | B9600 | B19200
  datatype AutoScrollTime = AutoScrollTime(seconds: U8)
  datatype BacklightTime = AlwaysOn | AlwaysOff | Delayed(minutes: U8)
  datatype PulseEnergyType = ImportActiveEnergy | TotalActiveEnergy | ExportActiveEnergy
  datatype SerialNumber = SerialNumber(number: U32)
  datatype MeterCode = MeterCode(code: U16)
  datatype SoftwareVersion = SoftwareVersion(version: U16)

  const AddressMin: U8 := 1
  const AddressMax: U8 := 247
  const PasswordMin: U16 := 0
  const PasswordMax: U16 := 9999
  const AutoScrollTimeMin: U8 := 0
  const AutoScrollTimeMax: U8 := 60
  const BacklightTimeMin: U8 := 1
  const BacklightTimeMax: U8 := 120

  /** The holding registers the clients read one at a time. */
  datatype Register =
    | SystemTypeReg | PulseWidthReg | KppaReg | ParityAndStopBitReg | AddressReg
    | PulseConstantReg | PasswordReg | BaudRateReg | AutoScrollTimeReg
    | BacklightTimeReg | PulseEnergyTypeReg
    | SerialNumberReg | MeterCodeReg | SoftwareVersionReg

  /**
   * The `ModbusParam` impls of the holding registers: every setting register
   * holds one `f32` in two words, the identity registers hold integers, and
   * each descriptor's quantity is its wire type's width in words.
   */
  function ParamOf(r: Register): (p: Param)
    ensures WellFormed(p)
    ensures p.wire == F32 <==> !IsIdentity(r)
  {
    match r
    case SystemTypeReg => Param(0x000A, 2, F32)
    case PulseWidthReg => Param(0x000C, 2, F32)
    case KppaReg => Param(0x000E, 2, F32)
    case ParityAndStopBitReg => Param(0x0012, 2, F32)
    case AddressReg => Param(0x0014, 2, F32)
    case PulseConstantReg => Param(0x0016, 2, F32)
    case PasswordReg => Param(0x0018, 2, F32)
    case BaudRateReg => Param(0x001C, 2, F32)
    case AutoScrollTimeReg => Param(0x003A, 2, F32)
    case BacklightTimeReg => Param(0x003C, 2, F32)
    case PulseEnergyTypeReg => Param(0x0056, 2, F32)
    case SerialNumberReg => Param(0xFC00, 2, U32Wire)
    case MeterCodeReg => Param(0xFC02, 1, U16Wire)
    case SoftwareVersionReg => Param(0xFC84, 1, U16Wire)
  }

  /** `ResetHistoricalData` (protocol.rs:657-662): a write-only `u16` command register. */
  const ResetHistoricalDataParam: Param := Param(0xF010, 1, U16Wire)
  const ResetHistoricalDataCode: U16 := 0x0003

  /** One decoded holding register, tagged with its type. */
  datatype RegisterValue =
    | SystemTypeValue(systemType: SystemType)
    | PulseWidthValue(pulseWidth: PulseWidth)
    | KppaValue(kppa: Kppa)
    | ParityAndStopBitValue(parityAndStopBit: ParityAndStopBit)
    | AddressValue(address: Address)
    | PulseConstantValue(pulseConstant: PulseConstant)
    | PasswordValue(password: Password)
    | BaudRateValue(baudRate: BaudRate)
    | AutoScrollTimeValue(autoScrollTime: AutoScrollTime)
    | BacklightTimeValue(backlightTime: BacklightTime)
    | PulseEnergyTypeValue(pulseEnergyType: PulseEnergyType)
    | SerialNumberValue(serialNumber: SerialNumber)
    | MeterCodeValue(meterCode: MeterCode)
    | SoftwareVersionValue(softwareVersion: SoftwareVersion)

  function RegisterOf(v: RegisterValue): Register
  {
    match v
    case SystemTypeValue(_) => SystemTypeReg
    case PulseWidthValue(_) => PulseWidthReg
    case KppaValue(_) => KppaReg
    case ParityAndStopBitValue(_) => ParityAndStopBitReg
    case AddressValue(_) => AddressReg
    case PulseConstantValue(_) => PulseConstantReg
    case PasswordValue(_) => PasswordReg
    case BaudRateValue(_) => BaudRateReg
    case AutoScrollTimeValue(_) => AutoScrollTimeReg
    case BacklightTimeValue(_) => BacklightTimeReg
    case PulseEnergyTypeValue(_) => PulseEnergyTypeReg
    case SerialNumberValue(_) => SerialNumberReg
    case MeterCodeValue(_) => MeterCodeReg
    case SoftwareVersionValue(_) => SoftwareVersionReg
  }

  /**
   * The values with an `encode_for_write_registers` method. KPPA is read as a
   * state and written as a password, and the identity registers are read-only.
   */
  predicate Writable(v: RegisterValue)
  {
    !(v.KppaValue? || v.SerialNumberValue? || v.MeterCodeValue? || v.SoftwareVersionValue?)
  }

  type Setting = v: RegisterValue | Writable(v) witness SystemTypeValue(Type3P4W)

  /** The read-only identity registers, which are integers on the wire. */
  predicate IsIdentity(r: Register)
  {
    r in {SerialNumberReg, MeterCodeReg, SoftwareVersionReg}
  }

  /** The registers whose decoder is a closed code table (`_ => Err(InvalidValue)`). */
  predicate IsEnumeration(r: Register)
  {
    r in {SystemTypeReg, KppaReg, ParityAndStopBitReg, PulseConstantReg, BaudRateReg, PulseEnergyTypeReg}
  }

  // ---------------------------------------------------------------------------
  // Code tables: the integer each value is written as (the `match self` arms of
  // every `encode_for_write_registers`, and KPPA's two states).

  function Code(v: RegisterValue): (n: nat)
    requires !IsIdentity(RegisterOf(v))
    ensures n < F.ExactLimit
  {
    match v
    case SystemTypeValue(s) => (match s case Type1P2W => 1 case Type3P4W => 3)
    case PulseWidthValue(p) => p.millis
    case KppaValue(k) => (match k case NotAuthorized => 0 case Authorized => 1)
    case ParityAndStopBitValue(p) =>
      (match p
       case NoParityOneStopBit => 0
       case EvenParityOneStopBit => 1
       case OddParityOneStopBit => 2
       case NoParityTwoStopBits => 3)
    case AddressValue(a) => a.id
    case PulseConstantValue(p) => (match p case PC1000 => 0 case PC100 => 1 case PC10 => 2 case PC1 => 3)
    case PasswordValue(p) => p.pin
    case BaudRateValue(b) =>
      (match b case B1200 => 5 case B2400 => 0 case B4800 => 1 case B9600 => 2 case B19200 => 3)
    case AutoScrollTimeValue(t) => t.seconds
    case BacklightTimeValue(b) => (match b case AlwaysOn => 0 case AlwaysOff => 121 case Delayed(m) => m)
    case PulseEnergyTypeValue(p) =>
      (match p case ImportActiveEnergy => 1 case TotalActiveEnergy => 2 case ExportActiveEnergy => 4)
  }

  /**
   * The `n.0 => value` arms of an enumeration register's decoder, in source
   * order (protocol.rs:75-79, 160-165, 207-214, 318-325, 423-431, 626-632).
   */
  function Arms(r: Register): (arms: seq<(nat, RegisterValue)>)
    requires IsEnumeration(r)
    ensures forall i :: 0 <= i < |arms| ==> arms[i].0 < F.ExactLimit
    ensures forall i :: 0 <= i < |arms| ==> RegisterOf(arms[i].1) == r
  {
    match r
    case SystemTypeReg => [(1, SystemTypeValue(Type1P2W)), (3, SystemTypeValue(Type3P4W))]
    case KppaReg => [(0, KppaValue(NotAuthorized)), (1, KppaValue(Authorized))]
    case ParityAndStopBitReg =>
      [(0, ParityAndStopBitValue(NoParityOneStopBit)), (1, ParityAndStopBitValue(EvenParityOneStopBit)),
       (2, ParityAndStopBitValue(OddParityOneStopBit)), (3, ParityAndStopBitValue(NoParityTwoStopBits))]
    case PulseConstantReg =>
      [(0, PulseConstantValue(PC1000)), (1, PulseConstantValue(PC100)),
       (2, PulseConstantValue(PC10)), (3, PulseConstantValue(PC1))]
    case BaudRateReg =>
      [(5, BaudRateValue(B1200)), (0, BaudRateValue(B2400)), (1, BaudRateValue(B4800)),
       (2, BaudRateValue(B9600)), (3, BaudRateValue(B19200))]
    case PulseEnergyTypeReg =>
      [(1, PulseEnergyTypeValue(ImportActiveEnergy)), (2, PulseEnergyTypeValue(TotalActiveEnergy)),
       (4, PulseEnergyTypeValue(ExportActiveEnergy))]
  }

  // ---------------------------------------------------------------------------
  // Decoders (`decode_from_holding_registers`)

  /**
   * A float `match` over `arms`: the value of the first arm whose literal
   * equals `bits` as a float, and `InvalidValue` (the `_` arm) when none does.
   */
  function MatchArms(bits: U32, arms: seq<(nat, RegisterValue)>): (r: Result<RegisterValue, ProtocolError>)
    requires forall i :: 0 <= i < |arms| ==> arms[i].0 < F.ExactLimit
    ensures r.Failure? <==> forall i :: 0 <= i < |arms| ==> !F.Equals(bits, arms[i].0)
    ensures r.Failure? ==> r.error == InvalidValue
    ensures r.Success? ==> exists i :: 0 <= i < |arms| && F.Equals(bits, arms[i].0) && r.value == arms[i].1
  {
    if arms == [] then Failure(InvalidValue)
    else if F.Equals(bits, arms[0].0) then Success(arms[0].1)
    else
      var r := MatchArms(bits, arms[1..]);
      assert forall i :: 1 <= i < |arms| ==> arms[i] == arms[1..][i - 1];
      r
  }

  /** The decoder of an enumeration register: the words' `f32`, matched against the arms. */
  function DecodeEnumeration(r: Register, ws: seq<Word>): (res: Result<RegisterValue, ProtocolError>)
    requires IsEnumeration(r)
    ensures res.Success? ==> RegisterOf(res.value) == r
    ensures res.Failure? ==> res.error == (if |ws| != 2 then WordsCountError else InvalidValue)
  {
    var v :- WordsToValue(F32, ws);
    MatchArms(v, Arms(r))
  }

  function DecodePulseWidth(ws: seq<Word>): (r: Result<PulseWidth, ProtocolError>)
    ensures r.Failure? <==> |ws| != 2
    ensures r.Failure? ==> r.error == WordsCountError
  {
    var v :- WordsToValue(F32, ws);
    Success(PulseWidth(F.ToUnsigned(v, 16)))
  }

  /** Does not re-validate: a decoded address may be 0 or above 247. */
  function DecodeAddress(ws: seq<Word>): (r: Result<Address, ProtocolError>)
    ensures r.Failure? <==> |ws| != 2
    ensures r.Failure? ==> r.error == WordsCountError
  {
    var v :- WordsToValue(F32, ws);
    Success(Address(F.ToUnsigned(v, 8)))
  }

  function DecodePassword(ws: seq<Word>): (r: Result<Password, ProtocolError>)
    ensures r.Failure? <==> |ws| != 2
    ensures r.Failure? ==> r.error == WordsCountError
  {
    var v :- WordsToValue(F32, ws);
    Success(Password(F.ToUnsigned(v, 16)))
  }

  /** `BaudRate::decode` (protocol.rs:445-448): the raw code as `u16`, unchecked. */
  function DecodeBaudRateCode(ws: seq<Word>): (r: Result<U16, ProtocolError>)
    ensures r.Failure? <==> |ws| != 2
    ensures r.Failure? ==> r.error == WordsCountError
  {
    var v :- WordsToValue(F32, ws);
    Success(F.ToUnsigned(v, 16))
  }

  function DecodeAutoScrollTime(ws: seq<Word>): (r: Result<AutoScrollTime, ProtocolError>)
    ensures r.Failure? <==> |ws| != 2
    ensures r.Failure? ==> r.error == WordsCountError
  {
    var v :- WordsToValue(F32, ws);
    Success(AutoScrollTime(F.ToUnsigned(v, 8)))
  }

  /** `AutoScrollTime::decode` (protocol.rs:518-521): the raw seconds as `u8`. */
  function DecodeAutoScrollTimeSeconds(ws: seq<Word>): (r: Result<U8, ProtocolError>)
    ensures r.Failure? <==> |ws| != 2
    ensures r.Failure? ==> r.error == WordsCountError
  {
    var v :- WordsToValue(F32, ws);
    Success(F.ToUnsigned(v, 8))
  }

  /** Three-way and unchecked: anything but 0.0 and 121.0 becomes `Delayed`. */
  function DecodeBacklightTime(ws: seq<Word>): (r: Result<BacklightTime, ProtocolError>)
    ensures r.Failure? <==> |ws| != 2
    ensures r.Failure? ==> r.error == WordsCountError
  {
    var v :- WordsToValue(F32, ws);
    if F.Equals(v, 0) then Success(AlwaysOn)
    else if F.Equals(v, 121) then Success(AlwaysOff)
    else Success(Delayed(F.ToUnsigned(v, 8)))
  }

  function DecodeSerialNumber(ws: seq<Word>): (r: Result<SerialNumber, ProtocolError>)
    ensures r.Failure? <==> |ws| != 2
    ensures r.Failure? ==> r.error == WordsCountError
  {
    var v :- WordsToValue(U32Wire, ws);
    Success(SerialNumber(v))
  }

  function DecodeMeterCode(ws: seq<Word>): (r: Result<MeterCode, ProtocolError>)
    ensures r.Failure? <==> |ws| != 1
    ensures r.Failure? ==> r.error == WordsCountError
  {
    var v :- WordsToValue(U16Wire, ws);
    Success(MeterCode(v))
  }

  function DecodeSoftwareVersion(ws: seq<Word>): (r: Result<SoftwareVersion, ProtocolError>)
    ensures r.Failure? <==> |ws| != 1
    ensures r.Failure? ==> r.error == WordsCountError
  {
    var v :- WordsToValue(U16Wire, ws);
    Success(SoftwareVersion(v))
  }

  function Tag<T>(r: Result<T, ProtocolError>, wrap: T -> RegisterValue): (res: Result<RegisterValue, ProtocolError>)
    ensures res.Failure? <==> r.Failure?
    ensures res.Failure? ==> res.error == r.error
    ensures res.Success? ==> res.value == wrap(r.value)
  {
    match r
    case Success(x) => Success(wrap(x))
    case Failure(e) => Failure(e)
  }

  /** The decoder of register `r`, as `read_holding!` instantiates it. */
  function Decode(r: Register, ws: seq<Word>): (res: Result<RegisterValue, ProtocolError>)
    ensures res.Success? ==> RegisterOf(res.value) == r
    ensures res.Failure? && 2 * |ws| != Width(ParamOf(r).wire) ==> res.error == WordsCountError
  {
    if IsEnumeration(r) then DecodeEnumeration(r, ws)
    else
      match r
      case PulseWidthReg => Tag(DecodePulseWidth(ws), x => PulseWidthValue(x))
      case AddressReg => Tag(DecodeAddress(ws), x => AddressValue(x))
      case PasswordReg => Tag(DecodePassword(ws), x => PasswordValue(x))
      case AutoScrollTimeReg => Tag(DecodeAutoScrollTime(ws), x => AutoScrollTimeValue(x))
      case BacklightTimeReg => Tag(DecodeBacklightTime(ws), x => BacklightTimeValue(x))
      case SerialNumberReg => Tag(DecodeSerialNumber(ws), x => SerialNumberValue(x))
      case MeterCodeReg => Tag(DecodeMeterCode(ws), x => MeterCodeValue(x))
      case SoftwareVersionReg => Tag(DecodeSoftwareVersion(ws), x => SoftwareVersionValue(x))
  }

  // ---------------------------------------------------------------------------
  // Encoders (`encode_for_write_registers`)

  /** `encode_for_write_registers` of a writable value: its code as `f32`. */
  function Encode(s: Setting): (ws: seq<Word>)
    ensures |ws| == ParamOf(RegisterOf(s)).quantity
  {
    SettingParam(s);
    F32Words(Code(s))
  }

  /** Every writable register holds one `f32`, in two words. */
  lemma SettingParam(s: Setting)
    ensures !IsIdentity(RegisterOf(s))
    ensures ParamOf(RegisterOf(s)) == Param(ParamOf(RegisterOf(s)).address, 2, F32)
  {
  }

  /** The words of `n as f32` carry the pattern of `n`. */
  lemma F32WordsDecode(n: nat)
    requires n < F.ExactLimit
    ensures WordsToValue(F32, F32Words(n)) == Success(F.FromNat(n))
  {
    ValueRoundTrip(F32, F.FromNat(n));
  }

  /** The pattern of `n` is read as the password `n`. */
  lemma PasswordDecodeOfCode(n: U16)
    ensures DecodePassword(F32Words(n)) == Success(Password(n))
  {
    F32WordsDecode(n);
    F.Pow2Constants();
    F.ToUnsignedFromNat(n, 16);
  }

  /** The password register is read as whatever its own decoder makes of the words. */
  lemma PasswordRegisterDecode(ws: seq<Word>)
    requires DecodePassword(ws).Success?
    ensures Decode(PasswordReg, ws) == Success(PasswordValue(DecodePassword(ws).value))
  {
  }

  /**
   * `KPPA::encode_for_write_registers(password)` (protocol.rs:168-170): the
   * words the meter is sent to unlock KPPA are read, on the password
   * register, as the password itself.
   */
  function EncodeKppa(password: Password): (ws: seq<Word>)
    ensures Decode(PasswordReg, ws) == Success(PasswordValue(password))
  {
    PasswordDecodeOfCode(password.pin);
    PasswordRegisterDecode(F32Words(password.pin));
    Encode(PasswordValue(password))
  }

  /** `ResetHistoricalData::encode_for_write_registers` (protocol.rs:664-667). */
  function EncodeResetHistoricalData(): (ws: seq<Word>)
    ensures ws == [ResetHistoricalDataCode]
    ensures |ws| == ResetHistoricalDataParam.quantity
  {
    ValueToWordsBigEndian(U16Wire, ResetHistoricalDataCode);
    ValueToWords(U16Wire, ResetHistoricalDataCode)
  }

  // ---------------------------------------------------------------------------
  // Range-checked constructors (`TryFrom`)

  function PulseWidthTryFrom(value: U16): (r: Result<PulseWidth, ProtocolError>)
    ensures r.Success? && Code(PulseWidthValue(r.value)) == value
  {
    Success(PulseWidth(value))
  }

  function AddressTryFrom(value: U8): (r: Result<Address, ProtocolError>)
    ensures r.Success? <==> AddressMin <= value <= AddressMax
    ensures r.Success? ==> Code(AddressValue(r.value)) == value
    ensures r.Failure? ==> r.error == AddressOutOfRange(value)
  {
    if AddressMin <= value <= AddressMax then Success(Address(value)) else Failure(AddressOutOfRange(value))
  }

  function PasswordTryFrom(value: U16): (r: Result<Password, ProtocolError>)
    ensures r.Success? <==> PasswordMin <= value <= PasswordMax
    ensures r.Success? ==> Code(PasswordValue(r.value)) == value
    ensures r.Failure? ==> r.error == PasswordOutOfRange(value)
  {
    if PasswordMin <= value <= PasswordMax then Success(Password(value)) else Failure(PasswordOutOfRange(value))
  }

  function AutoScrollTimeTryFrom(value: U8): (r: Result<AutoScrollTime, ProtocolError>)
    ensures r.Success? <==> AutoScrollTimeMin <= value <= AutoScrollTimeMax
    ensures r.Success? ==> Code(AutoScrollTimeValue(r.value)) == value
    ensures r.Failure? ==> r.error == AutoScrollTimeOutOfRange(value)
  {
    if AutoScrollTimeMin <= value <= AutoScrollTimeMax then Success(AutoScrollTime(value))
    else Failure(AutoScrollTimeOutOfRange(value))
  }

  /** 0 and 121 become the sentinels, so `Delayed` only ever holds 1..=120. */
  function BacklightTimeTryFrom(value: U8): (r: Result<BacklightTime, ProtocolError>)
    ensures r.Success? <==> value <= 121
    ensures r.Success? ==> Code(BacklightTimeValue(r.value)) == value
    ensures r.Success? && r.value.Delayed? ==> BacklightTimeMin <= r.value.minutes <= BacklightTimeMax
    ensures r.Failure? ==> r.error == BacklitTimeOutOfRange(value)
  {
    if BacklightTimeMin <= value <= BacklightTimeMax then Success(Delayed(value))
    else if value == 0 then Success(AlwaysOn)
    else if value == 121 then Success(AlwaysOff)
    else Failure(BacklitTimeOutOfRange(value))
  }

  /** `impl TryFrom<u16> for BaudRate` (protocol.rs:450-462): the five rates the meter supports. */
  function BaudRateTryFrom(value: U16): (r: Result<BaudRate, ProtocolError>)
    ensures r.Success? <==> value in {1200, 2400, 4800, 9600, 19200}
    ensures r.Success? ==> BaudRateToU16(r.value) == value
    ensures r.Failure? ==> r.error == InvalidBaudRate
  {
    match value
    case 1200 => Success(B1200)
    case 2400 => Success(B2400)
    case 4800 => Success(B4800)
    case 9600 => Success(B9600)
    case 19200 => Success(B19200)
    case _ => Failure(InvalidBaudRate)
  }

  /** `impl From<&BaudRate> for u16` (protocol.rs:464-474). */
  function BaudRateToU16(b: BaudRate): (rate: U16)
    ensures rate in {1200, 2400, 4800, 9600, 19200}
  {
    match b
    case B1200 => 1200
    case B2400 => 2400
    case B4800 => 4800
    case B9600 => 9600
    case B19200 => 19200
  }

  // ---------------------------------------------------------------------------
  // Batched reads

  /**
   * `get_subset_register_range!` (protocol.rs:819-824): where parameter `p`
   * sits in a response that starts at register `offset`.
   */
  function SubsetRange(offset: U16, p: Param): (range: (nat, nat))
    requires offset <= p.address
    ensures range.0 + p.quantity == range.1
    ensures offset + range.0 == p.address
  {
    (p.address - offset, p.address - offset + p.quantity)
  }

  /** `&rsp[get_subset_register_range!(offset, p)]`; requires the slice to be in bounds. */
  function Subset(rsp: seq<Word>, offset: U16, p: Param): (ws: seq<Word>)
    requires offset <= p.address && p.address - offset + p.quantity <= |rsp|
    ensures |ws| == p.quantity
  {
    var (lo, hi) := SubsetRange(offset, p);
    rsp[lo..hi]
  }

  // ---------------------------------------------------------------------------
  // Input (measurement) registers, protocol.rs:850-894

  datatype Measurement =
    | L1Voltage | L2Voltage | L3Voltage | L1Current | L2Current | L3Current
    | L1PowerActive | L2PowerActive | L3PowerActive
    | L1PowerApparent | L2PowerApparent | L3PowerApparent
    | L1PowerReactive | L2PowerReactive | L3PowerReactive
    | L1PowerFactor | L2PowerFactor | L3PowerFactor
    | LtoNAverageVoltage | LtoNAverageCurrent | TotalLineCurrent | TotalPower
    | TotalPowerApparent | TotalPowerReactive | TotalPowerFactor | Frequency
    | ImportEnergyActive | ExportEnergyActive
    | L1ToL2Voltage | L2ToL3Voltage | L3ToL1Voltage | LtoLAverageVoltage | NeutralCurrent
    | TotalEnergyActive | TotalEnergyReactive
    | ResettableTotalEnergyActive | ResettableTotalEnergyReactive
    | ResettableImportEnergyActive | ResettableExportEnergyActive | NetKwh
    | ImportTotalPowerActive | ExportTotalPowerActive

  /**
   * The `modbus_input_register!` address table (protocol.rs:851-894): every
   * entry is even, and lies in one of the four runs `read_all` reads as a batch.
   */
  function MeasurementAddress(m: Measurement): (a: U16)
    ensures a % 2 == 0
    ensures || a <= 0x004A
            || 0x00C8 <= a <= 0x00E0
            || 0x0156 <= a <= 0x018C
            || 0x0500 <= a <= 0x0502
  {
    match m
    case L1Voltage => 0x0000
    case L2Voltage => 0x0002
    case L3Voltage => 0x0004
    case L1Current => 0x0006
    case L2Current => 0x0008
    case L3Current => 0x000A
    case L1PowerActive => 0x000C
    case L2PowerActive => 0x000E
    case L3PowerActive => 0x0010
    case L1PowerApparent => 0x0012
    case L2PowerApparent => 0x0014
    case L3PowerApparent => 0x0016
    case L1PowerReactive => 0x0018
    case L2PowerReactive => 0x001A
    case L3PowerReactive => 0x001C
    case L1PowerFactor => 0x001E
    case L2PowerFactor => 0x0020
    case L3PowerFactor => 0x0022
    case LtoNAverageVoltage => 0x002A
    case LtoNAverageCurrent => 0x002E
    case TotalLineCurrent => 0x0030
    case TotalPower => 0x0034
    case TotalPowerApparent => 0x0038
    case TotalPowerReactive => 0x003C
    case TotalPowerFactor => 0x003E
    case Frequency => 0x0046
    case ImportEnergyActive => 0x0048
    case ExportEnergyActive => 0x004A
    case L1ToL2Voltage => 0x00C8
    case L2ToL3Voltage => 0x00CA
    case L3ToL1Voltage => 0x00CC
    case LtoLAverageVoltage => 0x00CE
    case NeutralCurrent => 0x00E0
    case TotalEnergyActive => 0x0156
    case TotalEnergyReactive => 0x0158
    case ResettableTotalEnergyActive => 0x0180
    case ResettableTotalEnergyReactive => 0x0182
    case ResettableImportEnergyActive => 0x0184
    case ResettableExportEnergyActive => 0x0186
    case NetKwh => 0x018C
    case ImportTotalPowerActive => 0x0500
    case ExportTotalPowerActive => 0x0502
  }

  /** The descriptor of a measurement: a two-word `f32`, as every table entry declares. */
  function MeasurementParam(m: Measurement): (p: Param)
    ensures WellFormed(p) && p.wire == F32
  {
    Param(MeasurementAddress(m), 2, F32)
  }

  /**
   * `decode_from_input_register` (protocol.rs:808-811): the `f32` is kept as
   * its pattern, so decoding is the codec alone.
   */
  function DecodeMeasurement(ws: seq<Word>): (r: Result<U32, ProtocolError>)
    ensures r.Success? <==> |ws| == 2
    ensures r.Success? ==> ValueToWords(F32, r.value) == ws
  {
    var v :- WordsToValue(F32, ws);
    WordsRoundTrip(F32, ws);
    Success(v)
  }
}
