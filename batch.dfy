/**
 * The batched reads of `read_all_settings` and `read_all` (src/tokio_sync.rs):
 * which register range each batch request covers, how each field is cut out
 * of a batch response, and the decoding of the records `AllSettings` and
 * `AllValues` of src/tokio_common.rs.
 */
module Batch {
  import opened Wrappers
  import opened Words
  import opened Errors
  import opened Codec
  import opened Protocol
  import opened ProtocolProperties

  // ---------------------------------------------------------------------------
  // Settings

  datatype AllSettings = AllSettings(
    systemType: SystemType,
    pulseWidth: PulseWidth,
    kppa: Kppa,
    parityAndStopBit: ParityAndStopBit,
    address: Address,
    pulseConstant: PulseConstant,
    password: Password,
    baudRate: BaudRate,
    autoScrollTime: AutoScrollTime,
    backlightTime: BacklightTime,
    pulseEnergyType: PulseEnergyType,
    serialNumber: SerialNumber,
    meterCode: MeterCode,
    softwareVersion: SoftwareVersion)

  /** The field of `s` that holds register `r`. */
  function Field(s: AllSettings, r: Register): (v: RegisterValue)
    ensures RegisterOf(v) == r
  {
    match r
    case SystemTypeReg => SystemTypeValue(s.systemType)
    case PulseWidthReg => PulseWidthValue(s.pulseWidth)
    case KppaReg => KppaValue(s.kppa)
    case ParityAndStopBitReg => ParityAndStopBitValue(s.parityAndStopBit)
    case AddressReg => AddressValue(s.address)
    case PulseConstantReg => PulseConstantValue(s.pulseConstant)
    case PasswordReg => PasswordValue(s.password)
    case BaudRateReg => BaudRateValue(s.baudRate)
    case AutoScrollTimeReg => AutoScrollTimeValue(s.autoScrollTime)
    case BacklightTimeReg => BacklightTimeValue(s.backlightTime)
    case PulseEnergyTypeReg => PulseEnergyTypeValue(s.pulseEnergyType)
    case SerialNumberReg => SerialNumberValue(s.serialNumber)
    case MeterCodeReg => MeterCodeValue(s.meterCode)
    case SoftwareVersionReg => SoftwareVersionValue(s.softwareVersion)
  }

  /** The settings batch spans `SystemType` to `PulseEnergyType` (tokio_sync.rs:142-144). */
  const SettingsOffset: U16 := ParamOf(SystemTypeReg).address
  const SettingsQuantity: U16 :=
    ParamOf(PulseEnergyTypeReg).address - SettingsOffset + ParamOf(PulseEnergyTypeReg).quantity

  /** The registers `read_all_settings` reads in its one batch: all but the identity values. */
  type BatchedRegister = r: Register | !IsIdentity(r) witness SystemTypeReg

  /** Each batched register's range lies inside the batch response. */
  lemma SettingsSliceInBounds(r: BatchedRegister)
    ensures SettingsOffset <= ParamOf(r).address
    ensures ParamOf(r).address - SettingsOffset + ParamOf(r).quantity <= SettingsQuantity
  {
  }

  /** Distinct fields of the settings batch occupy disjoint ranges of the response. */
  lemma SettingsSlicesDisjoint(r1: BatchedRegister, r2: BatchedRegister)
    requires r1 != r2
    ensures SubsetRange(SettingsOffset, ParamOf(r1)).1 <= SubsetRange(SettingsOffset, ParamOf(r2)).0
         || SubsetRange(SettingsOffset, ParamOf(r2)).1 <= SubsetRange(SettingsOffset, ParamOf(r1)).0
  {
    RegisterAddressesDistinct(r1, r2);
  }

  /** `decode_subset_item_from_holding_register!(offset1, r, &rsp1)`. */
  function SettingsSlice(rsp: seq<Word>, r: BatchedRegister): (ws: seq<Word>)
    requires |rsp| == SettingsQuantity
    ensures |ws| == ParamOf(r).quantity
  {
    SettingsSliceInBounds(r);
    Subset(rsp, SettingsOffset, ParamOf(r))
  }

  /** The registers of the settings batch, in the field order of `AllSettings`. */
  const SettingsBatch: seq<BatchedRegister> := [
    SystemTypeReg, PulseWidthReg, KppaReg, ParityAndStopBitReg, AddressReg, PulseConstantReg,
    PasswordReg, BaudRateReg, AutoScrollTimeReg, BacklightTimeReg, PulseEnergyTypeReg]

  /** The position of a batched register in `SettingsBatch`: every batched register is listed. */
  function BatchIndex(r: BatchedRegister): (i: nat)
    ensures i < |SettingsBatch| && SettingsBatch[i] == r
  {
    match r
    case SystemTypeReg => 0
    case PulseWidthReg => 1
    case KppaReg => 2
    case ParityAndStopBitReg => 3
    case AddressReg => 4
    case PulseConstantReg => 5
    case PasswordReg => 6
    case BaudRateReg => 7
    case AutoScrollTimeReg => 8
    case BacklightTimeReg => 9
    case PulseEnergyTypeReg => 10
  }

  /** The fields `rs` of the settings batch decoded in order; the first failure is returned. */
  function DecodeFields(rsp: seq<Word>, rs: seq<BatchedRegister>): (res: Result<seq<RegisterValue>, ProtocolError>)
    requires |rsp| == SettingsQuantity
    ensures res.Success? ==> |res.value| == |rs|
    ensures res.Success? ==> forall i :: 0 <= i < |rs| ==> RegisterOf(res.value[i]) == rs[i]
  {
    if rs == [] then Success([])
    else
      var v :- Decode(rs[0], SettingsSlice(rsp, rs[0]));
      var vs :- DecodeFields(rsp, rs[1..]);
      Success([v] + vs)
  }

  /** The record of the eleven batched values, in field order, and the identity values. */
  function Settings(vs: seq<RegisterValue>, serial: SerialNumber, meter: MeterCode, version: SoftwareVersion): (s: AllSettings)
    requires |vs| == |SettingsBatch|
    requires forall i :: 0 <= i < |vs| ==> RegisterOf(vs[i]) == SettingsBatch[i]
    ensures forall i :: 0 <= i < |vs| ==> Field(s, SettingsBatch[i]) == vs[i]
    ensures s.serialNumber == serial && s.meterCode == meter && s.softwareVersion == version
  {
    assert RegisterOf(vs[0]) == SystemTypeReg;
    assert RegisterOf(vs[1]) == PulseWidthReg;
    assert RegisterOf(vs[2]) == KppaReg;
    assert RegisterOf(vs[3]) == ParityAndStopBitReg;
    assert RegisterOf(vs[4]) == AddressReg;
    assert RegisterOf(vs[5]) == PulseConstantReg;
    assert RegisterOf(vs[6]) == PasswordReg;
    assert RegisterOf(vs[7]) == BaudRateReg;
    assert RegisterOf(vs[8]) == AutoScrollTimeReg;
    assert RegisterOf(vs[9]) == BacklightTimeReg;
    assert RegisterOf(vs[10]) == PulseEnergyTypeReg;
    AllSettings(
      vs[0].systemType, vs[1].pulseWidth, vs[2].kppa, vs[3].parityAndStopBit,
      vs[4].address, vs[5].pulseConstant, vs[6].password, vs[7].baudRate,
      vs[8].autoScrollTime, vs[9].backlightTime, vs[10].pulseEnergyType,
      serial, meter, version)
  }

  /**
   * The `AllSettings` literal of tokio_sync.rs:154-209: the eleven batched
   * fields decoded in field order, the first failure returned, and the three
   * identity values already read.
   */
  function DecodeAllSettings(rsp: seq<Word>, serial: SerialNumber, meter: MeterCode, version: SoftwareVersion)
    : (r: Result<AllSettings, ProtocolError>)
    requires |rsp| == SettingsQuantity
    ensures r.Success? ==> r.value.serialNumber == serial && r.value.meterCode == meter && r.value.softwareVersion == version
    ensures r.Failure? ==> r.error == InvalidValue
  {
    DecodeFieldsFailure(rsp, SettingsBatch);
    var vs :- DecodeFields(rsp, SettingsBatch);
    Success(Settings(vs, serial, meter, version))
  }

  lemma {:induction false} DecodeFieldsSuccess(rsp: seq<Word>, rs: seq<BatchedRegister>)
    requires |rsp| == SettingsQuantity
    requires DecodeFields(rsp, rs).Success?
    ensures forall i :: 0 <= i < |rs| ==> Decode(rs[i], SettingsSlice(rsp, rs[i])) == Success(DecodeFields(rsp, rs).value[i])
  {
    if rs != [] {
      DecodeFieldsSuccess(rsp, rs[1..]);
    }
  }

  lemma {:induction false} DecodeFieldsFailure(rsp: seq<Word>, rs: seq<BatchedRegister>)
    requires |rsp| == SettingsQuantity
    ensures DecodeFields(rsp, rs).Failure? <==> exists i :: 0 <= i < |rs| && Decode(rs[i], SettingsSlice(rsp, rs[i])).Failure?
    ensures DecodeFields(rsp, rs).Failure? ==> DecodeFields(rsp, rs).error == InvalidValue
  {
    if rs != [] {
      DecodeFieldsFailure(rsp, rs[1..]);
      FieldFailure(rsp, rs[0]);
      if DecodeFields(rsp, rs[1..]).Failure? {
        var i :| 0 <= i < |rs[1..]| && Decode(rs[1..][i], SettingsSlice(rsp, rs[1..][i])).Failure?;
        assert Decode(rs[i + 1], SettingsSlice(rsp, rs[i + 1])).Failure?;
      }
      if Decode(rs[0], SettingsSlice(rsp, rs[0])).Success? {
        forall i | 1 <= i < |rs| && Decode(rs[i], SettingsSlice(rsp, rs[i])).Failure?
          ensures DecodeFields(rsp, rs[1..]).Failure?
        {
          assert rs[1..][i - 1] == rs[i];
        }
      }
    }
  }

  /** Only an enumeration field of the batch can fail to decode, and only with `InvalidValue`. */
  lemma FieldFailure(rsp: seq<Word>, r: BatchedRegister)
    requires |rsp| == SettingsQuantity
    ensures Decode(r, SettingsSlice(rsp, r)).Failure? ==>
      IsEnumeration(r) && Decode(r, SettingsSlice(rsp, r)).error == InvalidValue
  {
    RegisterDescriptorsWellFormed(r);
    DecodeFailures(r, SettingsSlice(rsp, r));
  }

  /** Each decoded field is what that register's own decoder makes of its slice. */
  lemma DecodeAllSettingsFields(rsp: seq<Word>, serial: SerialNumber, meter: MeterCode, version: SoftwareVersion, s: AllSettings)
    requires |rsp| == SettingsQuantity
    requires DecodeAllSettings(rsp, serial, meter, version) == Success(s)
    ensures forall r: BatchedRegister :: Decode(r, SettingsSlice(rsp, r)) == Success(Field(s, r))
  {
    var vs := DecodeFields(rsp, SettingsBatch).value;
    assert s == Settings(vs, serial, meter, version);
    DecodeFieldsSuccess(rsp, SettingsBatch);
    forall r: BatchedRegister
      ensures Decode(r, SettingsSlice(rsp, r)) == Success(Field(s, r))
    {
      var i := BatchIndex(r);
      assert Decode(SettingsBatch[i], SettingsSlice(rsp, SettingsBatch[i])) == Success(vs[i]);
    }
  }

  /**
   * Decoding the settings batch fails exactly when one of the six enumeration
   * fields holds an unlisted code (the error is then `InvalidValue`, by
   * `DecodeAllSettings`' own contract).
   */
  lemma DecodeAllSettingsFailure(rsp: seq<Word>, serial: SerialNumber, meter: MeterCode, version: SoftwareVersion)
    requires |rsp| == SettingsQuantity
    ensures DecodeAllSettings(rsp, serial, meter, version).Failure?
        <==> exists r: BatchedRegister :: IsEnumeration(r) && Decode(r, SettingsSlice(rsp, r)).Failure?
  {
    DecodeFieldsFailure(rsp, SettingsBatch);
    forall r: BatchedRegister | IsEnumeration(r) && Decode(r, SettingsSlice(rsp, r)).Failure?
      ensures DecodeFields(rsp, SettingsBatch).Failure?
    {
      var i := BatchIndex(r);
      assert Decode(SettingsBatch[i], SettingsSlice(rsp, SettingsBatch[i])).Failure?;
    }
    if DecodeFields(rsp, SettingsBatch).Failure? {
      var i :| 0 <= i < |SettingsBatch| && Decode(SettingsBatch[i], SettingsSlice(rsp, SettingsBatch[i])).Failure?;
      FieldFailure(rsp, SettingsBatch[i]);
    }
  }

  // ---------------------------------------------------------------------------
  // Values

  /** `AllValues`: one reading (an `f32` pattern) per measurement register. */
  datatype AllValues = AllValues(readings: map<Measurement, U32>)

  /** The fields of `AllValues`, in declaration order (tokio_common.rs). */
  const MeasurementOrder: seq<Measurement> := [
    L1Voltage, L2Voltage, L3Voltage, L1Current, L2Current, L3Current,
    L1PowerActive, L2PowerActive, L3PowerActive,
    L1PowerApparent, L2PowerApparent, L3PowerApparent,
    L1PowerReactive, L2PowerReactive, L3PowerReactive,
    L1PowerFactor, L2PowerFactor, L3PowerFactor,
    LtoNAverageVoltage, LtoNAverageCurrent, TotalLineCurrent, TotalPower,
    TotalPowerApparent, TotalPowerReactive, TotalPowerFactor, Frequency,
    ImportEnergyActive, ExportEnergyActive,
    L1ToL2Voltage, L2ToL3Voltage, L3ToL1Voltage, LtoLAverageVoltage, NeutralCurrent,
    TotalEnergyActive, TotalEnergyReactive,
    ResettableTotalEnergyActive, ResettableTotalEnergyReactive,
    ResettableImportEnergyActive, ResettableExportEnergyActive, NetKwh,
    ImportTotalPowerActive, ExportTotalPowerActive]

  lemma MeasurementListed(m: Measurement)
    ensures m in MeasurementOrder
  {
  }

  lemma AllMeasurementsListed()
    ensures forall m :: m in MeasurementOrder
  {
    forall m
      ensures m in MeasurementOrder
    {
      MeasurementListed(m);
    }
  }

  /** The number of input batches `read_all` requests. */
  const BatchCount: nat := 4

  /** First and last register of each input batch (tokio_sync.rs:230-255). */
  function BatchFirst(k: nat): Measurement
    requires k < BatchCount
  {
    if k == 0 then L1Voltage
    else if k == 1 then L1ToL2Voltage
    else if k == 2 then TotalEnergyActive
    else ImportTotalPowerActive
  }

  function BatchLast(k: nat): Measurement
    requires k < BatchCount
  {
    if k == 0 then ExportEnergyActive
    else if k == 1 then NeutralCurrent
    else if k == 2 then NetKwh
    else ExportTotalPowerActive
  }

  /** The register the `k`-th input batch starts at. */
  function BatchOffset(k: nat): U16
    requires k < BatchCount
  {
    [0x0000, 0x00C8, 0x0156, 0x0500][k]
  }

  /** The number of registers the `k`-th input batch reads. */
  function BatchQuantity(k: nat): U16
    requires k < BatchCount
  {
    [76, 26, 56, 4][k]
  }

  /** The batch whose response a measurement's field is cut from, by address. */
  function BatchOf(m: Measurement): (k: nat)
    ensures k < BatchCount
  {
    var a := MeasurementAddress(m);
    if a <= 0x004A then 0
    else if a <= 0x00E0 then 1
    else if a <= 0x018C then 2
    else 3
  }

  /**
   * Each input batch runs from its first register through the last one:
   * `offset = first::ADDRESS` and `quantity = last::ADDRESS - offset + last::QUANTITY`.
   */
  lemma InputBatches(k: nat)
    requires k < BatchCount
    ensures BatchOffset(k) == MeasurementAddress(BatchFirst(k))
    ensures BatchQuantity(k) == MeasurementAddress(BatchLast(k)) - BatchOffset(k) + MeasurementParam(BatchLast(k)).quantity
  {
  }

  /** Every measurement's field lies inside the response of its batch. */
  lemma MeasurementInBatch(m: Measurement)
    ensures BatchOffset(BatchOf(m)) <= MeasurementAddress(m)
    ensures MeasurementAddress(m) + MeasurementParam(m).quantity <= BatchOffset(BatchOf(m)) + BatchQuantity(BatchOf(m))
  {
  }

  /** Fields cut from the same batch occupy disjoint ranges of its response. */
  lemma MeasurementSlicesDisjoint(m1: Measurement, m2: Measurement)
    requires m1 != m2 && BatchOf(m1) == BatchOf(m2)
    ensures BatchOffset(BatchOf(m1)) <= MeasurementAddress(m1) && BatchOffset(BatchOf(m2)) <= MeasurementAddress(m2)
    ensures var k := BatchOf(m1);
      SubsetRange(BatchOffset(k), MeasurementParam(m1)).1 <= SubsetRange(BatchOffset(k), MeasurementParam(m2)).0
      || SubsetRange(BatchOffset(k), MeasurementParam(m2)).1 <= SubsetRange(BatchOffset(k), MeasurementParam(m1)).0
  {
    MeasurementInBatch(m1);
    MeasurementInBatch(m2);
    MeasurementRangesDisjoint(m1, m2);
  }

  /** Responses of the right lengths, one per batch. */
  predicate BatchResponses(rsps: seq<seq<Word>>)
  {
    |rsps| == BatchCount && forall k :: 0 <= k < BatchCount ==> |rsps[k]| == BatchQuantity(k)
  }

  /** `decode_subset_item_from_input_register!(offset, m, &rsp)`: the words of `m`. */
  function Slice(rsps: seq<seq<Word>>, m: Measurement): (ws: seq<Word>)
    requires BatchResponses(rsps)
    ensures |ws| == 2
  {
    MeasurementInBatch(m);
    Subset(rsps[BatchOf(m)], BatchOffset(BatchOf(m)), MeasurementParam(m))
  }

  /**
   * The fields `ms`, decoded in order. `decode_subset_item_from_input_register!`
   * propagates a decoding error with `?`, but a two-word slice always decodes
   * (`DecodeMeasurement`), so no error can arise here.
   */
  function DecodeReadings(ms: seq<Measurement>, rsps: seq<seq<Word>>): map<Measurement, U32>
    requires BatchResponses(rsps)
  {
    if ms == [] then map[]
    else DecodeReadings(ms[1..], rsps)[ms[0] := DecodeMeasurement(Slice(rsps, ms[0])).value]
  }

  /** The `AllValues` literal of tokio_sync.rs:257-467: a reading for every measurement. */
  function DecodeAllValues(rsps: seq<seq<Word>>): (v: AllValues)
    requires BatchResponses(rsps)
    ensures forall m :: m in v.readings
  {
    DecodeReadingsFields(MeasurementOrder, rsps);
    AllMeasurementsListed();
    AllValues(DecodeReadings(MeasurementOrder, rsps))
  }

  lemma {:induction false} DecodeReadingsFields(ms: seq<Measurement>, rsps: seq<seq<Word>>)
    requires BatchResponses(rsps)
    ensures forall m :: m in DecodeReadings(ms, rsps) <==> m in ms
    ensures forall m :: m in ms ==> DecodeReadings(ms, rsps)[m] == Pattern(F32, Slice(rsps, m))
  {
    if ms != [] {
      DecodeReadingsFields(ms[1..], rsps);
      assert forall m :: m in ms <==> m == ms[0] || m in ms[1..];
    }
  }

  /**
   * `AllValues` has a reading for every measurement, and it is the pattern of
   * that measurement's own two words.
   */
  lemma DecodeAllValuesReadings(rsps: seq<seq<Word>>)
    requires BatchResponses(rsps)
    ensures forall m :: DecodeAllValues(rsps).readings[m] == Pattern(F32, Slice(rsps, m))
  {
    DecodeReadingsFields(MeasurementOrder, rsps);
    AllMeasurementsListed();
  }
}
