/**
 * What the register protocol of src/protocol.rs guarantees: every value
 * written is read back as itself, the code tables are exact in both
 * directions, unlisted codes are refused, and the descriptors and the
 * measurement table are consistent.
 */
module ProtocolProperties {
  import opened Wrappers
  import opened Words
  import opened Errors
  import opened Codec
  import opened Protocol
  import F = Float32

  // ---------------------------------------------------------------------------
  // Descriptors

  /** Every holding-register descriptor's QUANTITY is its wire width in words. */
  lemma RegisterDescriptorsWellFormed(r: Register)
    ensures WellFormed(ParamOf(r))
    ensures ParamOf(r).quantity == (if IsIdentity(r) && r != SerialNumberReg then 1 else 2)
    ensures WellFormed(ResetHistoricalDataParam)
  {
  }

  /** Distinct holding registers never share an address. */
  lemma RegisterAddressesDistinct(r1: Register, r2: Register)
    ensures ParamOf(r1).address == ParamOf(r2).address <==> r1 == r2
  {
  }

  // ---------------------------------------------------------------------------
  // f32 words

  lemma NegativeZeroWordsDecode()
    ensures WordsToValue(F32, NegativeZeroWords) == Success(F.NegativeZero)
  {
    WordsToValueBigEndian(F32, NegativeZeroWords);
  }

  /**
   * A float-equality match arm `n.0 =>` accepts exactly two word pairs: those
   * of `n as f32` and, for `0.0`, those of -0.0.
   */
  lemma EqualsWords(ws: seq<Word>, n: nat)
    requires |ws| == 2 && n < F.ExactLimit
    ensures F.Equals(Pattern(F32, ws), n) <==> ws == F32Words(n) || (n == 0 && ws == NegativeZeroWords)
  {
    var bits := Pattern(F32, ws);
    WordsRoundTrip(F32, ws);
    F32WordsDecode(n);
    NegativeZeroWordsDecode();
    if bits == F.NegativeZero {
      ValueToWordsBigEndian(F32, bits);
    }
  }

  // ---------------------------------------------------------------------------
  // Round trips

  /** The two hand-built `BacklightTime` values that collide with the sentinels. */
  predicate SentinelCollision(v: RegisterValue)
  {
    v.BacklightTimeValue? && v.backlightTime.Delayed? && v.backlightTime.minutes in {0, 121}
  }

  lemma PulseWidthRoundTrip(p: PulseWidth)
    ensures Decode(PulseWidthReg, Encode(PulseWidthValue(p))) == Success(PulseWidthValue(p))
  {
    assert Encode(PulseWidthValue(p)) == F32Words(p.millis);
    PulseWidthDecodeOfCode(p.millis);
  }

  /** The pattern of `n` is read as a width of `n` milliseconds. */
  lemma PulseWidthDecodeOfCode(n: U16)
    ensures DecodePulseWidth(F32Words(n)) == Success(PulseWidth(n))
  {
    F32WordsDecode(n);
    F.Pow2Constants();
    F.ToUnsignedFromNat(n, 16);
  }

  lemma AddressRoundTrip(a: Address)
    ensures Decode(AddressReg, Encode(AddressValue(a))) == Success(AddressValue(a))
  {
    assert Encode(AddressValue(a)) == F32Words(a.id);
    AddressDecodeOfCode(a.id);
  }

  /** The pattern of `n` is read as the address `n`. */
  lemma AddressDecodeOfCode(n: U8)
    ensures DecodeAddress(F32Words(n)) == Success(Address(n))
  {
    F32WordsDecode(n);
    F.Pow2Constants();
    F.ToUnsignedFromNat(n, 8);
  }

  lemma PasswordRoundTrip(p: Password)
    ensures Decode(PasswordReg, Encode(PasswordValue(p))) == Success(PasswordValue(p))
  {
    assert Encode(PasswordValue(p)) == F32Words(p.pin);
    PasswordDecodeOfCode(p.pin);
  }

  lemma AutoScrollTimeRoundTrip(t: AutoScrollTime)
    ensures Decode(AutoScrollTimeReg, Encode(AutoScrollTimeValue(t))) == Success(AutoScrollTimeValue(t))
  {
    assert Encode(AutoScrollTimeValue(t)) == F32Words(t.seconds);
    AutoScrollTimeDecodeOfCode(t.seconds);
  }

  /** The pattern of `n` is read as `n` seconds. */
  lemma AutoScrollTimeDecodeOfCode(n: U8)
    ensures DecodeAutoScrollTime(F32Words(n)) == Success(AutoScrollTime(n))
  {
    F32WordsDecode(n);
    F.Pow2Constants();
    F.ToUnsignedFromNat(n, 8);
  }

  lemma DelayedRoundTrip(minutes: U8)
    requires minutes != 0 && minutes != 121
    ensures Decode(BacklightTimeReg, Encode(BacklightTimeValue(Delayed(minutes)))) == Success(BacklightTimeValue(Delayed(minutes)))
  {
    BacklightReadOfDelayed(minutes);
  }

  /** An enumeration value is read as itself when its pattern is stored. */
  lemma EnumerationRoundTrip(v: RegisterValue)
    requires IsEnumeration(RegisterOf(v))
    ensures Decode(RegisterOf(v), F32Words(Code(v))) == Success(v)
  {
    EnumerationDecodeExact(v, F32Words(Code(v)));
  }

  /**
   * Every writable value is read back as itself, except `Delayed(0)` and
   * `Delayed(121)`, which read back as the sentinels.
   */
  lemma SettingRoundTrip(s: Setting)
    requires !SentinelCollision(s)
    ensures Decode(RegisterOf(s), Encode(s)) == Success(s)
  {
    match s {
      case PulseWidthValue(p) => PulseWidthRoundTrip(p);
      case AddressValue(a) => AddressRoundTrip(a);
      case PasswordValue(p) => PasswordRoundTrip(p);
      case AutoScrollTimeValue(t) => AutoScrollTimeRoundTrip(t);
      case BacklightTimeValue(b) =>
        if b.Delayed? {
          DelayedRoundTrip(b.minutes);
        } else {
          SentinelRoundTrip(b);
        }
      case SystemTypeValue(_) | ParityAndStopBitValue(_) | PulseConstantValue(_) | BaudRateValue(_) | PulseEnergyTypeValue(_) =>
        assert Encode(s) == F32Words(Code(s));
        EnumerationRoundTrip(s);
    }
  }

  /**
   * The words of `n.0` for a `u8` value `n` read as `AlwaysOn` for 0, as
   * `AlwaysOff` for 121 and as `Delayed(n)` otherwise.
   */
  lemma BacklightDecodeOfCode(n: nat)
    requires n < 0x100
    ensures DecodeBacklightTime(F32Words(n))
      == Success(if n == 0 then AlwaysOn else if n == 121 then AlwaysOff else Delayed(n))
  {
    F.Pow2Constants();
    F32WordsDecode(n);
    if n != 0 {
      F.FromNatNotEquals(n, 0);
      if n != 121 {
        F.FromNatNotEquals(n, 121);
        F.ToUnsignedFromNat(n, 8);
      }
    }
  }

  /** The backlight register is read as whatever its own decoder makes of the words. */
  lemma BacklightRegisterDecode(ws: seq<Word>)
    requires DecodeBacklightTime(ws).Success?
    ensures Decode(BacklightTimeReg, ws) == Success(BacklightTimeValue(DecodeBacklightTime(ws).value))
  {
  }

  /** What a written `Delayed(n)` is read back as. */
  lemma BacklightReadOfDelayed(n: U8)
    ensures Decode(BacklightTimeReg, Encode(BacklightTimeValue(Delayed(n))))
      == Success(BacklightTimeValue(if n == 0 then AlwaysOn else if n == 121 then AlwaysOff else Delayed(n)))
  {
    assert Encode(BacklightTimeValue(Delayed(n))) == F32Words(n);
    assert DecodeBacklightTime(F32Words(n)) == Success(if n == 0 then AlwaysOn else if n == 121 then AlwaysOff else Delayed(n)) by {
      BacklightDecodeOfCode(n);
    }
    BacklightRegisterDecode(F32Words(n));
  }

  /** `Delayed(0)` is written as 0.0, the code of `AlwaysOn`, and read back as `AlwaysOn`. */
  lemma DelayedZeroReadsAlwaysOn()
    ensures Decode(BacklightTimeReg, Encode(BacklightTimeValue(Delayed(0)))) == Success(BacklightTimeValue(AlwaysOn))
  {
    BacklightReadOfDelayed(0);
  }

  /** `Delayed(121)` is written as 121.0, the code of `AlwaysOff`, and read back as `AlwaysOff`. */
  lemma DelayedPastMaxReadsAlwaysOff()
    ensures Decode(BacklightTimeReg, Encode(BacklightTimeValue(Delayed(121)))) == Success(BacklightTimeValue(AlwaysOff))
  {
    BacklightReadOfDelayed(121);
  }

  /**
   * `AlwaysOn` and `AlwaysOff` are written as 0.0 and 121.0, the same words as
   * `Delayed(0)` and `Delayed(121)`, and read back as themselves.
   */
  lemma SentinelRoundTrip(b: BacklightTime)
    requires !b.Delayed?
    ensures Decode(BacklightTimeReg, Encode(BacklightTimeValue(b))) == Success(BacklightTimeValue(b))
  {
    SentinelsShareWords();
    if b == AlwaysOn {
      DelayedZeroReadsAlwaysOn();
    } else {
      DelayedPastMaxReadsAlwaysOff();
    }
  }

  /** The sentinels are written with the same words as `Delayed(0)` and `Delayed(121)`. */
  lemma SentinelsShareWords()
    ensures Encode(BacklightTimeValue(AlwaysOn)) == Encode(BacklightTimeValue(Delayed(0)))
    ensures Encode(BacklightTimeValue(AlwaysOff)) == Encode(BacklightTimeValue(Delayed(121)))
  {
    assert Code(BacklightTimeValue(AlwaysOn)) == Code(BacklightTimeValue(Delayed(0)));
    SameCodeSameWords(BacklightTimeValue(AlwaysOn), BacklightTimeValue(Delayed(0)));
    assert Code(BacklightTimeValue(AlwaysOff)) == Code(BacklightTimeValue(Delayed(121)));
    SameCodeSameWords(BacklightTimeValue(AlwaysOff), BacklightTimeValue(Delayed(121)));
  }

  /** Two values with the same code are written with the same words. */
  lemma SameCodeSameWords(s1: Setting, s2: Setting)
    requires Code(s1) == Code(s2)
    ensures Encode(s1) == Encode(s2)
  {
  }

  /** `BacklightTime` round-trips exactly when it is not a sentinel collision. */
  lemma BacklightTimeRoundTrip(b: BacklightTime)
    ensures Decode(BacklightTimeReg, Encode(BacklightTimeValue(b))) == Success(BacklightTimeValue(b))
        <==> !(b == Delayed(0) || b == Delayed(121))
  {
    if b == Delayed(0) {
      DelayedZeroReadsAlwaysOn();
    } else if b == Delayed(121) {
      DelayedPastMaxReadsAlwaysOff();
    } else if b.Delayed? {
      DelayedRoundTrip(b.minutes);
    } else {
      SentinelRoundTrip(b);
    }
  }

  /** Every pulse width `try_from` builds is read back as itself. */
  lemma PulseWidthConstructedRoundTrip(pulseWidth: U16)
    ensures var s := PulseWidthValue(PulseWidthTryFrom(pulseWidth).value);
      Decode(PulseWidthReg, Encode(s)) == Success(s)
  {
    PulseWidthRoundTrip(PulseWidthTryFrom(pulseWidth).value);
  }

  /** Every value `Address::try_from` accepts is read back as itself. */
  lemma AddressConstructedRoundTrip(address: U8)
    requires AddressTryFrom(address).Success?
    ensures var s := AddressValue(AddressTryFrom(address).value);
      Decode(AddressReg, Encode(s)) == Success(s)
  {
    AddressRoundTrip(AddressTryFrom(address).value);
  }

  /** Every value `Password::try_from` accepts is read back as itself. */
  lemma PasswordConstructedRoundTrip(password: U16)
    requires PasswordTryFrom(password).Success?
    ensures var s := PasswordValue(PasswordTryFrom(password).value);
      Decode(PasswordReg, Encode(s)) == Success(s)
  {
    PasswordRoundTrip(PasswordTryFrom(password).value);
  }

  /** Every value `AutoScrollTime::try_from` accepts is read back as itself. */
  lemma AutoScrollTimeConstructedRoundTrip(scroll: U8)
    requires AutoScrollTimeTryFrom(scroll).Success?
    ensures var s := AutoScrollTimeValue(AutoScrollTimeTryFrom(scroll).value);
      Decode(AutoScrollTimeReg, Encode(s)) == Success(s)
  {
    AutoScrollTimeRoundTrip(AutoScrollTimeTryFrom(scroll).value);
  }

  /** Every value `BacklightTime::try_from` accepts is read back as itself. */
  lemma BacklightTimeConstructedRoundTrip(minutes: U8)
    requires BacklightTimeTryFrom(minutes).Success?
    ensures var s := BacklightTimeValue(BacklightTimeTryFrom(minutes).value);
      Decode(BacklightTimeReg, Encode(s)) == Success(s)
  {
    BacklightTimeRoundTrip(BacklightTimeTryFrom(minutes).value);
  }

  // ---------------------------------------------------------------------------
  // Code tables

  /** The arm of an enumeration value in its register's decoder. */
  function ArmOf(v: RegisterValue): (i: nat)
    requires IsEnumeration(RegisterOf(v))
    ensures i < |Arms(RegisterOf(v))| && Arms(RegisterOf(v))[i] == (Code(v), v)
  {
    match v
    case SystemTypeValue(x) => (match x case Type1P2W => 0 case Type3P4W => 1)
    case KppaValue(x) => (match x case NotAuthorized => 0 case Authorized => 1)
    case ParityAndStopBitValue(x) =>
      (match x
       case NoParityOneStopBit => 0
       case EvenParityOneStopBit => 1
       case OddParityOneStopBit => 2
       case NoParityTwoStopBits => 3)
    case PulseConstantValue(x) => (match x case PC1000 => 0 case PC100 => 1 case PC10 => 2 case PC1 => 3)
    case BaudRateValue(x) =>
      (match x case B1200 => 0 case B2400 => 1 case B4800 => 2 case B9600 => 3 case B19200 => 4)
    case PulseEnergyTypeValue(x) =>
      (match x case ImportActiveEnergy => 0 case TotalActiveEnergy => 1 case ExportActiveEnergy => 2)
  }

  /**
   * The decoder arms and the encoder table of each enumeration were written
   * separately; they agree, and no literal appears in two arms.
   */
  lemma ArmsAgreeWithEncoder(r: Register)
    requires IsEnumeration(r)
    ensures forall i :: 0 <= i < |Arms(r)| ==> Code(Arms(r)[i].1) == Arms(r)[i].0
    ensures forall i, j :: 0 <= i < j < |Arms(r)| ==> Arms(r)[i].0 != Arms(r)[j].0
  {
  }

  /** The code of an arm's value is the arm's literal. */
  lemma ArmCode(r: Register, i: nat)
    requires IsEnumeration(r) && i < |Arms(r)|
    ensures Code(Arms(r)[i].1) == Arms(r)[i].0
  {
    ArmsAgreeWithEncoder(r);
  }

  /** A pattern equals at most one integer as a float. */
  lemma EqualsFunctional(bits: U32, a: nat, b: nat)
    requires a < F.ExactLimit && b < F.ExactLimit
    requires F.Equals(bits, a) && F.Equals(bits, b)
    ensures a == b
  {
    F.FromNatInjective(a, b);
    if a == 0 && bits == F.NegativeZero {
      F.FromNatInjective(b, 0);
    }
  }

  /** With distinct literals, the arm whose literal matches is the one taken. */
  lemma MatchArmsTakesMatchingArm(bits: U32, arms: seq<(nat, RegisterValue)>, i: nat)
    requires forall k :: 0 <= k < |arms| ==> arms[k].0 < F.ExactLimit
    requires forall k, l :: 0 <= k < l < |arms| ==> arms[k].0 != arms[l].0
    requires i < |arms| && F.Equals(bits, arms[i].0)
    ensures MatchArms(bits, arms) == Success(arms[i].1)
  {
    var j :| 0 <= j < |arms| && F.Equals(bits, arms[j].0) && MatchArms(bits, arms).value == arms[j].1;
    EqualsFunctional(bits, arms[i].0, arms[j].0);
  }

  /** An enumeration register's words, once two, are matched as one `f32`. */
  lemma DecodeEnumerationRegister(r: Register, ws: seq<Word>)
    requires IsEnumeration(r) && |ws| == 2
    ensures Decode(r, ws) == MatchArms(Pattern(F32, ws), Arms(r))
  {
    assert Decode(r, ws) == DecodeEnumeration(r, ws);
  }

  /** Two words whose pattern equals `v`'s code decode as `v`. */
  lemma MatchingCodeDecodes(v: RegisterValue, ws: seq<Word>)
    requires IsEnumeration(RegisterOf(v)) && |ws| == 2
    requires F.Equals(Pattern(F32, ws), Code(v))
    ensures Decode(RegisterOf(v), ws) == Success(v)
  {
    var r := RegisterOf(v);
    DecodeEnumerationRegister(r, ws);
    ArmsAgreeWithEncoder(r);
    MatchArmsTakesMatchingArm(Pattern(F32, ws), Arms(r), ArmOf(v));
  }

  /** Two words that decode as `v` matched `v`'s arm, so their pattern equals `v`'s code. */
  lemma DecodedCodeMatches(v: RegisterValue, ws: seq<Word>)
    requires IsEnumeration(RegisterOf(v)) && |ws| == 2
    requires Decode(RegisterOf(v), ws) == Success(v)
    ensures F.Equals(Pattern(F32, ws), Code(v))
  {
    var arms := Arms(RegisterOf(v));
    DecodeEnumerationRegister(RegisterOf(v), ws);
    var j :| 0 <= j < |arms| && F.Equals(Pattern(F32, ws), arms[j].0) && v == arms[j].1;
    ArmCode(RegisterOf(v), j);
  }

  /** Two words decode as `v` exactly when their pattern equals `v`'s code. */
  lemma EnumerationDecodePair(v: RegisterValue, ws: seq<Word>)
    requires IsEnumeration(RegisterOf(v)) && |ws| == 2
    ensures Decode(RegisterOf(v), ws) == Success(v) <==> F.Equals(Pattern(F32, ws), Code(v))
  {
    if F.Equals(Pattern(F32, ws), Code(v)) {
      MatchingCodeDecodes(v, ws);
    } else if Decode(RegisterOf(v), ws) == Success(v) {
      DecodedCodeMatches(v, ws);
    }
  }

  /**
   * An enumeration register reads as `v` exactly when its words are the
   * pattern of `v`'s code, or -0.0 when that code is 0.
   */
  lemma EnumerationDecodeExact(v: RegisterValue, ws: seq<Word>)
    requires IsEnumeration(RegisterOf(v))
    ensures Decode(RegisterOf(v), ws) == Success(v)
        <==> ws == F32Words(Code(v)) || (Code(v) == 0 && ws == NegativeZeroWords)
  {
    if |ws| == 2 {
      EnumerationDecodePair(v, ws);
      EqualsWords(ws, Code(v));
    } else {
      assert Decode(RegisterOf(v), ws) == DecodeEnumeration(RegisterOf(v), ws);
    }
  }

  /**
   * With the right word count, an enumeration register's decoder refuses,
   * with `InvalidValue`, exactly the patterns that equal none of its literals.
   */
  lemma EnumerationRejectsUnlisted(r: Register, ws: seq<Word>)
    requires IsEnumeration(r) && |ws| == 2
    ensures Decode(r, ws).Failure? <==> forall i :: 0 <= i < |Arms(r)| ==> !F.Equals(Pattern(F32, ws), Arms(r)[i].0)
    ensures Decode(r, ws).Failure? ==> Decode(r, ws).error == InvalidValue
  {
    DecodeEnumerationRegister(r, ws);
  }

  /**
   * A holding register fails to decode with `WordsCountError` exactly when
   * the word count is wrong; with the right count only an enumeration
   * register can fail, and then with `InvalidValue`.
   */
  lemma DecodeFailures(r: Register, ws: seq<Word>)
    ensures Decode(r, ws).Failure? && 2 * |ws| != Width(ParamOf(r).wire) ==> Decode(r, ws).error == WordsCountError
    ensures Decode(r, ws).Failure? && 2 * |ws| == Width(ParamOf(r).wire) ==>
      IsEnumeration(r) && Decode(r, ws).error == InvalidValue
    ensures 2 * |ws| != Width(ParamOf(r).wire) ==> Decode(r, ws).Failure?
  {
  }

  /**
   * `TryFrom<u16>` undoes `u16::from` on every rate; the other direction is
   * part of `BaudRateTryFrom`'s own contract.
   */
  lemma BaudRateTableTwoWay(b: BaudRate)
    ensures BaudRateTryFrom(BaudRateToU16(b)) == Success(b)
  {
  }

  /** The wire codes of the rates: 1200↔5, 2400↔0, 4800↔1, 9600↔2, 19200↔3. */
  lemma BaudRateWireCodes(b: BaudRate)
    ensures Code(BaudRateValue(b)) == match BaudRateToU16(b)
      case 1200 => 5 case 2400 => 0 case 4800 => 1 case 9600 => 2 case _ => 3
  {
  }

  /**
   * `BaudRate::decode` yields the wire code the rate is written as (2 for
   * 9600 baud), not the rate.
   */
  lemma BaudRateDecodeIsWireCode(b: BaudRate)
    ensures DecodeBaudRateCode(Encode(BaudRateValue(b))) == Success(Code(BaudRateValue(b)))
  {
    F32WordsDecode(Code(BaudRateValue(b)));
    F.Pow2Constants();
    F.ToUnsignedFromNat(Code(BaudRateValue(b)), 16);
  }

  /** `AutoScrollTime::decode` yields the seconds the register holds. */
  lemma AutoScrollTimeDecodeSeconds(t: AutoScrollTime)
    ensures DecodeAutoScrollTimeSeconds(Encode(AutoScrollTimeValue(t))) == Success(t.seconds)
  {
    F32WordsDecode(t.seconds);
    F.Pow2Constants();
    F.ToUnsignedFromNat(t.seconds, 8);
  }

  /** The decoders do not re-validate: a stored address 0 reads as `Address(0)`. */
  lemma AddressDecodeUnchecked()
    ensures Decode(AddressReg, F32Words(0)) == Success(AddressValue(Address(0)))
    ensures AddressTryFrom(0).Failure?
  {
    F32WordsDecode(0);
    F.Pow2Constants();
    F.ToUnsignedFromNat(0, 8);
  }

  // ---------------------------------------------------------------------------
  // Measurement table

  /** The register at an address of the measurement table. */
  function MeasurementAt(address: U16): Option<Measurement>
  {
    match address
    case 0x0000 => Some(L1Voltage)
    case 0x0002 => Some(L2Voltage)
    case 0x0004 => Some(L3Voltage)
    case 0x0006 => Some(L1Current)
    case 0x0008 => Some(L2Current)
    case 0x000A => Some(L3Current)
    case 0x000C => Some(L1PowerActive)
    case 0x000E => Some(L2PowerActive)
    case 0x0010 => Some(L3PowerActive)
    case 0x0012 => Some(L1PowerApparent)
    case 0x0014 => Some(L2PowerApparent)
    case 0x0016 => Some(L3PowerApparent)
    case 0x0018 => Some(L1PowerReactive)
    case 0x001A => Some(L2PowerReactive)
    case 0x001C => Some(L3PowerReactive)
    case 0x001E => Some(L1PowerFactor)
    case 0x0020 => Some(L2PowerFactor)
    case 0x0022 => Some(L3PowerFactor)
    case 0x002A => Some(LtoNAverageVoltage)
    case 0x002E => Some(LtoNAverageCurrent)
    case 0x0030 => Some(TotalLineCurrent)
    case 0x0034 => Some(TotalPower)
    case 0x0038 => Some(TotalPowerApparent)
    case 0x003C => Some(TotalPowerReactive)
    case 0x003E => Some(TotalPowerFactor)
    case 0x0046 => Some(Frequency)
    case 0x0048 => Some(ImportEnergyActive)
    case 0x004A => Some(ExportEnergyActive)
    case 0x00C8 => Some(L1ToL2Voltage)
    case 0x00CA => Some(L2ToL3Voltage)
    case 0x00CC => Some(L3ToL1Voltage)
    case 0x00CE => Some(LtoLAverageVoltage)
    case 0x00E0 => Some(NeutralCurrent)
    case 0x0156 => Some(TotalEnergyActive)
    case 0x0158 => Some(TotalEnergyReactive)
    case 0x0180 => Some(ResettableTotalEnergyActive)
    case 0x0182 => Some(ResettableTotalEnergyReactive)
    case 0x0184 => Some(ResettableImportEnergyActive)
    case 0x0186 => Some(ResettableExportEnergyActive)
    case 0x018C => Some(NetKwh)
    case 0x0500 => Some(ImportTotalPowerActive)
    case 0x0502 => Some(ExportTotalPowerActive)
    case _ => None
  }

  /** Each measurement is the one register at its address. */
  lemma MeasurementAtAddress(m: Measurement)
    ensures MeasurementAt(MeasurementAddress(m)) == Some(m)
  {
  }

  /** Two measurements' two-word ranges never overlap. */
  lemma MeasurementRangesDisjoint(m1: Measurement, m2: Measurement)
    requires m1 != m2
    ensures MeasurementAddress(m1) + 2 <= MeasurementAddress(m2) || MeasurementAddress(m2) + 2 <= MeasurementAddress(m1)
  {
    var a1, a2 := MeasurementAddress(m1), MeasurementAddress(m2);
    MeasurementAtAddress(m1);
    MeasurementAtAddress(m2);
    assert a1 != a2;
    EvenApart(a1, a2);
  }

  /** Two distinct even numbers are at least two apart. */
  lemma EvenApart(a: int, b: int)
    requires a % 2 == 0 && b % 2 == 0 && a != b
    ensures a + 2 <= b || b + 2 <= a
  {
  }
}
