/**
 * What one call of each operation of `SDM72` (src/tokio_sync.rs) does on a
 * connection, as a value: the requests and pauses it puts on the link, in
 * order, and what it returns. The `n`-th request is the one the device sees
 * as its `n`-th; `slave` is the unit id the context addresses.
 *
 * `??` on a tokio-modbus call turns both the transport error and the
 * exception response into the library's `Error`; `?` on decoding wraps a
 * protocol error as `Error::Protocol`.
 */
module Session {
  import opened Wrappers
  import opened Words
  import opened Errors
  import opened Codec
  import opened Protocol
  import opened ProtocolProperties
  import opened Batch
  import opened Transport

  datatype Run<T> = Run(events: seq<Event>, result: Result<T, Error>)

  /** `?` on a protocol result inside a function returning the library's `Result`. */
  function Lift<T>(r: Result<T, ProtocolError>): (res: Result<T, Error>)
    ensures res.Success? <==> r.Success?
    ensures res.Success? ==> res.value == r.value
    ensures res.Failure? ==> res.error == Protocol(r.error)
  {
    if r.Success? then Success(r.value) else Failure(Protocol(r.error))
  }

  // ---------------------------------------------------------------------------
  // Requests

  /**
   * The request `read_holding!` sends for register `r`: a holding read at the
   * register's address of exactly as many words as its wire type is wide.
   */
  function HoldingRead(r: Register): (q: Request)
    ensures q.Read? && q.space == Holding && q.address == ParamOf(r).address
    ensures 2 * q.quantity == Width(ParamOf(r).wire)
  {
    Read(Holding, ParamOf(r).address, ParamOf(r).quantity)
  }

  /** The batch request of `read_all_settings`. */
  const SettingsRead: Request := Read(Holding, SettingsOffset, SettingsQuantity)

  /** The requests of `read_all_settings`, in the order it sends them. */
  const SettingsRequests: seq<Request> :=
    [SettingsRead, HoldingRead(SerialNumberReg), HoldingRead(MeterCodeReg), HoldingRead(SoftwareVersionReg)]

  /**
   * The batch requests of `read_all`, in the order it sends them: input reads
   * at increasing addresses that do not overlap, each within the 125
   * registers a single Modbus read may ask for (section 6.4 of the Modbus
   * Application Protocol Specification V1.1b3).
   */
  function InputRead(k: nat): (q: Request)
    requires k < BatchCount
    ensures q.Read? && q.space == Input && 0 < q.quantity <= 125
    ensures q.address + q.quantity <= 0x1_0000
    ensures k + 1 < BatchCount ==> q.address + q.quantity <= BatchOffset(k + 1)
  {
    Read(Input, BatchOffset(k), BatchQuantity(k))
  }

  const InputRequests: seq<Request> := [InputRead(0), InputRead(1), InputRead(2), InputRead(3)]

  /**
   * The requests `reqs` sent one after another to `slave` with a pause of
   * `delay` between two consecutive requests and none after the last.
   */
  function Schedule(slave: U8, delay: nat, reqs: seq<Request>): (events: seq<Event>)
    ensures Requests(events) == reqs
    ensures |events| == if reqs == [] then 0 else 2 * |reqs| - 1
  {
    if reqs == [] then []
    else if |reqs| == 1 then
      assert [Sent(slave, reqs[0])][..0] == [];
      [Sent(slave, reqs[0])]
    else
      var rest := Schedule(slave, delay, reqs[1..]);
      RequestsAppend([Sent(slave, reqs[0]), Slept(delay)], rest);
      assert Requests([Sent(slave, reqs[0]), Slept(delay)]) == [reqs[0]] by {
        assert [Sent(slave, reqs[0]), Slept(delay)][..1] == [Sent(slave, reqs[0])];
        assert [Sent(slave, reqs[0])][..0] == [];
      }
      assert reqs == [reqs[0]] + reqs[1..];
      [Sent(slave, reqs[0]), Slept(delay)] + rest
  }

  /**
   * The position in `reqs` of the first request the device does not answer
   * with data, or `|reqs|` when it answers all of them.
   */
  function FirstFailure(dev: Device, n: nat, reqs: seq<Request>): (k: nat)
    ensures k <= |reqs|
    ensures forall j :: 0 <= j < k ==> Answer(dev, n + j, reqs[j]).Success?
    ensures k < |reqs| ==> Answer(dev, n + k, reqs[k]).Failure?
    decreases |reqs|
  {
    if reqs == [] then 0
    else if Answer(dev, n, reqs[0]).Failure? then 0
    else
      var k := FirstFailure(dev, n + 1, reqs[1..]);
      assert forall j :: 1 <= j < k + 1 ==> reqs[j] == reqs[1..][j - 1];
      1 + k
  }

  // ---------------------------------------------------------------------------
  // One register

  /** `read_holding!`: read the register, then decode it. */
  function ReadHoldingRun(dev: Device, slave: U8, n: nat, r: Register): (run: Run<RegisterValue>)
    ensures run.result.Success? ==> RegisterOf(run.result.value) == r
  {
    var answer := Answer(dev, n, HoldingRead(r));
    Run([Sent(slave, HoldingRead(r))],
      if answer.Failure? then Failure(answer.error) else Lift(Decode(r, answer.value)))
  }

  /** `write_multiple_registers(address, words)??`. */
  function WriteRun(dev: Device, slave: U8, n: nat, address: U16, words: seq<Word>): (run: Run<()>)
    ensures run.events == [Sent(slave, Write(address, words))]
    ensures run.result.Success? <==> n !in dev.lost && Covers(dev.holding, address, |words|)
  {
    Run([Sent(slave, Write(address, words))], WriteResult(dev, n, address, words))
  }

  /**
   * `write_holding!`: one write at the value's register, of words that read
   * back as the value (but for the two sentinel collisions).
   */
  function SetHoldingRun(dev: Device, slave: U8, n: nat, s: Setting): (run: Run<()>)
    ensures |run.events| == 1 && run.events[0].Sent? && run.events[0].request.Write?
    ensures run.events[0].request.address == ParamOf(RegisterOf(s)).address
    ensures !SentinelCollision(s) ==> Decode(RegisterOf(s), run.events[0].request.words) == Success(s)
  {
    if SentinelCollision(s) then WriteRun(dev, slave, n, ParamOf(RegisterOf(s)).address, Encode(s))
    else
      SettingRoundTrip(s);
      WriteRun(dev, slave, n, ParamOf(RegisterOf(s)).address, Encode(s))
  }

  /** `set_kppa`: one write at the KPPA register, of words that read as the password. */
  function SetKppaRun(dev: Device, slave: U8, n: nat, password: Password): (run: Run<()>)
    ensures |run.events| == 1 && run.events[0].Sent? && run.events[0].request.Write?
    ensures run.events[0].request.address == ParamOf(KppaReg).address
    ensures Decode(PasswordReg, run.events[0].request.words) == Success(PasswordValue(password))
  {
    WriteRun(dev, slave, n, ParamOf(KppaReg).address, EncodeKppa(password))
  }

  /**
   * `reset_historical_data`: one write of the descriptor's single word, which
   * succeeds exactly when it is delivered and the meter has the register.
   */
  function ResetRun(dev: Device, slave: U8, n: nat): (run: Run<()>)
    ensures |run.events| == 1 && run.events[0].Sent? && run.events[0].request.Write?
    ensures |run.events[0].request.words| == ResetHistoricalDataParam.quantity
    ensures run.result.Success? <==> n !in dev.lost && ResetHistoricalDataParam.address in dev.holding
  {
    WriteRun(dev, slave, n, ResetHistoricalDataParam.address, EncodeResetHistoricalData())
  }

  /**
   * The requests as they appear on the wire: the settings batch covers
   * 0x000A..0x0057 (system type to pulse energy type), the identity registers
   * follow at 0xFC00, 0xFC02 and 0xFC84, and `read_all` reads its four input
   * register batches from 0x0000, 0x00C8, 0x0156 and 0x0500.
   */
  lemma RequestsOnTheWire()
    ensures SettingsRequests == [Read(Holding, 0x000A, 78), Read(Holding, 0xFC00, 2),
                                 Read(Holding, 0xFC02, 1), Read(Holding, 0xFC84, 1)]
    ensures InputRequests == [Read(Input, 0x0000, 76), Read(Input, 0x00C8, 26),
                              Read(Input, 0x0156, 56), Read(Input, 0x0500, 4)]
  {
    InputBatches(0);
    InputBatches(1);
    InputBatches(2);
    InputBatches(3);
  }

  /**
   * The writes as they appear on the wire: `set_kppa` writes two words at
   * 0x000E, `reset_historical_data` the single word 0x0003 at 0xF010, and
   * `set_address` two words at 0x0014.
   */
  lemma WritesOnTheWire(dev: Device, slave: U8, n: nat, password: Password, a: Address)
    ensures SetKppaRun(dev, slave, n, password).events == [Sent(slave, Write(0x000E, EncodeKppa(password)))]
    ensures |EncodeKppa(password)| == 2
    ensures ResetRun(dev, slave, n).events == [Sent(slave, Write(0xF010, [0x0003]))]
    ensures SetHoldingRun(dev, slave, n, AddressValue(a)).events == [Sent(slave, Write(0x0014, Encode(AddressValue(a))))]
    ensures |Encode(AddressValue(a))| == 2
  {
    assert SetKppaRun(dev, slave, n, password).events == [Sent(slave, Write(0x000E, EncodeKppa(password)))] && |EncodeKppa(password)| == 2 by {
      KppaWireWords(dev, slave, n, password);
    }
    assert SetHoldingRun(dev, slave, n, AddressValue(a)).events == [Sent(slave, Write(0x0014, Encode(AddressValue(a))))] by {
      AddressWireWords(dev, slave, n, a);
    }
  }

  /** The KPPA write alone: one request of two words at 0x000E. */
  lemma KppaWireWords(dev: Device, slave: U8, n: nat, password: Password)
    ensures SetKppaRun(dev, slave, n, password).events == [Sent(slave, Write(0x000E, EncodeKppa(password)))]
    ensures |EncodeKppa(password)| == 2
  {
  }

  /** The address write alone: one request at 0x0014. */
  lemma AddressWireWords(dev: Device, slave: U8, n: nat, a: Address)
    ensures SetHoldingRun(dev, slave, n, AddressValue(a)).events == [Sent(slave, Write(0x0014, Encode(AddressValue(a))))]
  {
  }

  // ---------------------------------------------------------------------------
  // Batches

  /**
   * The requests of `read_all_settings` (tokio_sync.rs:142-152): the settings
   * batch, then the three identity registers one by one with a pause before
   * each; the batch's words and the identity values read. The `?` after each
   * identity read also covers its decoding, but a register answered with its
   * own number of words always decodes (`IdentityReadFailure`), so only the
   * transport's errors arise here.
   */
  function SettingsReads(dev: Device, slave: U8, n: nat, delay: nat): (run: Run<(seq<Word>, SerialNumber, MeterCode, SoftwareVersion)>)
    ensures run.result.Success? ==> |run.result.value.0| == SettingsQuantity
  {
    IdentityAnswersDecode(dev, n);
    var batch := Answer(dev, n, SettingsRead);
    var events1 := [Sent(slave, SettingsRead)];
    if batch.Failure? then Run(events1, Failure(batch.error))
    else
      var serial := Answer(dev, n + 1, HoldingRead(SerialNumberReg));
      var events2 := events1 + [Slept(delay)] + [Sent(slave, HoldingRead(SerialNumberReg))];
      if serial.Failure? then Run(events2, Failure(serial.error))
      else
        var meter := Answer(dev, n + 2, HoldingRead(MeterCodeReg));
        var events3 := events2 + [Slept(delay)] + [Sent(slave, HoldingRead(MeterCodeReg))];
        if meter.Failure? then Run(events3, Failure(meter.error))
        else
          var version := Answer(dev, n + 3, HoldingRead(SoftwareVersionReg));
          var events4 := events3 + [Slept(delay)] + [Sent(slave, HoldingRead(SoftwareVersionReg))];
          if version.Failure? then Run(events4, Failure(version.error))
          else
            Run(events4, Success((batch.value, DecodeSerialNumber(serial.value).value,
              DecodeMeterCode(meter.value).value, DecodeSoftwareVersion(version.value).value)))
  }

  /**
   * `read_all_settings` (tokio_sync.rs:138-210): the reads, then the decoding
   * of the batch into the fields of `AllSettings`.
   */
  function ReadAllSettingsRun(dev: Device, slave: U8, n: nat, delay: nat): (run: Run<AllSettings>)
    ensures |run.events| >= 1 && run.events[0] == Sent(slave, SettingsRead)
    ensures run.result.Success? ==> |run.events| == 7
  {
    var got := SettingsReads(dev, slave, n, delay);
    if got.result.Failure? then Run(got.events, Failure(got.result.error))
    else
      var v := got.result.value;
      Run(got.events, Lift(DecodeAllSettings(v.0, v.1, v.2, v.3)))
  }

  /**
   * `read_all` (tokio_sync.rs:226-468): the four input batches with a pause
   * between two of them, then the decoding of all of them.
   */
  function ReadAllRun(dev: Device, slave: U8, n: nat, delay: nat): (run: Run<AllValues>)
    ensures |run.events| >= 1 && run.events[0] == Sent(slave, InputRead(0))
    ensures run.result.Success? ==> |run.events| == 7 && forall m :: m in run.result.value.readings
  {
    var a0 := Answer(dev, n, InputRead(0));
    var events0 := [Sent(slave, InputRead(0))];
    if a0.Failure? then Run(events0, Failure(a0.error))
    else
      var a1 := Answer(dev, n + 1, InputRead(1));
      var events1 := events0 + [Slept(delay)] + [Sent(slave, InputRead(1))];
      if a1.Failure? then Run(events1, Failure(a1.error))
      else
        var a2 := Answer(dev, n + 2, InputRead(2));
        var events2 := events1 + [Slept(delay)] + [Sent(slave, InputRead(2))];
        if a2.Failure? then Run(events2, Failure(a2.error))
        else
          var a3 := Answer(dev, n + 3, InputRead(3));
          var events3 := events2 + [Slept(delay)] + [Sent(slave, InputRead(3))];
          if a3.Failure? then Run(events3, Failure(a3.error))
          else Run(events3, Success(DecodeAllValues([a0.value, a1.value, a2.value, a3.value])))
  }

  // ---------------------------------------------------------------------------
  // Properties of the batches

  /** The requests sent: all of `reqs` up to and including the first one that fails. */
  function Attempted(dev: Device, n: nat, reqs: seq<Request>): seq<Request>
  {
    var k := FirstFailure(dev, n, reqs);
    reqs[..if k < |reqs| then k + 1 else |reqs|]
  }

  lemma ScheduleCons(slave: U8, delay: nat, r: Request, rest: seq<Request>)
    requires rest != []
    ensures Schedule(slave, delay, [r] + rest) == [Sent(slave, r), Slept(delay)] + Schedule(slave, delay, rest)
  {
    assert ([r] + rest)[1..] == rest;
  }

  /** `Schedule` on two, three and four requests, written out. */
  lemma ScheduleOfTwo(slave: U8, delay: nat, r0: Request, r1: Request)
    ensures Schedule(slave, delay, [r0, r1]) == [Sent(slave, r0), Slept(delay), Sent(slave, r1)]
    ensures Schedule(slave, delay, [r0, r1]) == [Sent(slave, r0)] + [Slept(delay)] + [Sent(slave, r1)]
  {
    ScheduleCons(slave, delay, r0, [r1]);
    assert [r0] + [r1] == [r0, r1];
  }

  lemma ScheduleOfThree(slave: U8, delay: nat, r0: Request, r1: Request, r2: Request)
    ensures Schedule(slave, delay, [r0, r1, r2])
         == [Sent(slave, r0), Slept(delay), Sent(slave, r1), Slept(delay), Sent(slave, r2)]
    ensures Schedule(slave, delay, [r0, r1, r2])
         == [Sent(slave, r0)] + [Slept(delay)] + [Sent(slave, r1)] + [Slept(delay)] + [Sent(slave, r2)]
  {
    ScheduleOfTwo(slave, delay, r1, r2);
    ScheduleCons(slave, delay, r0, [r1, r2]);
    assert [r0] + [r1, r2] == [r0, r1, r2];
  }

  lemma ScheduleOfFour(slave: U8, delay: nat, r0: Request, r1: Request, r2: Request, r3: Request)
    ensures Schedule(slave, delay, [r0, r1, r2, r3])
         == [Sent(slave, r0), Slept(delay), Sent(slave, r1), Slept(delay), Sent(slave, r2), Slept(delay), Sent(slave, r3)]
    ensures Schedule(slave, delay, [r0, r1, r2, r3])
         == [Sent(slave, r0)] + [Slept(delay)] + [Sent(slave, r1)] + [Slept(delay)] + [Sent(slave, r2)]
          + [Slept(delay)] + [Sent(slave, r3)]
  {
    ScheduleOfThree(slave, delay, r1, r2, r3);
    ScheduleCons(slave, delay, r0, [r1, r2, r3]);
    assert [r0] + [r1, r2, r3] == [r0, r1, r2, r3];
  }

  /** `FirstFailure` on four requests, written out. */
  lemma FirstFailureOfFour(dev: Device, n: nat, r0: Request, r1: Request, r2: Request, r3: Request)
    ensures FirstFailure(dev, n, [r0, r1, r2, r3]) ==
      if Answer(dev, n, r0).Failure? then 0
      else if Answer(dev, n + 1, r1).Failure? then 1
      else if Answer(dev, n + 2, r2).Failure? then 2
      else if Answer(dev, n + 3, r3).Failure? then 3
      else 4
  {
    var k := FirstFailure(dev, n, [r0, r1, r2, r3]);
    assert [r0, r1, r2, r3][1] == r1 && [r0, r1, r2, r3][2] == r2 && [r0, r1, r2, r3][3] == r3;
  }

  /**
   * `read_all` sends the four input batches in order with a pause between two
   * of them, stops at the first request that fails and returns its error, and
   * fails only then.
   */
  lemma ReadAllSchedule(dev: Device, slave: U8, n: nat, delay: nat)
    ensures var run := ReadAllRun(dev, slave, n, delay);
      var k := FirstFailure(dev, n, InputRequests);
      && run.events == Schedule(slave, delay, Attempted(dev, n, InputRequests))
      && (run.result.Failure? <==> k < |InputRequests|)
      && (run.result.Failure? ==> run.result.error == Answer(dev, n + k, InputRequests[k]).error)
  {
    var r0, r1, r2, r3 := InputRead(0), InputRead(1), InputRead(2), InputRead(3);
    assert InputRequests == [r0, r1, r2, r3];
    FirstFailureOfFour(dev, n, r0, r1, r2, r3);
    if Answer(dev, n, r0).Failure? {
      assert InputRequests[..1] == [r0];
    } else if Answer(dev, n + 1, r1).Failure? {
      assert InputRequests[..2] == [r0, r1];
      ScheduleOfTwo(slave, delay, r0, r1);
    } else if Answer(dev, n + 2, r2).Failure? {
      assert InputRequests[..3] == [r0, r1, r2];
      ScheduleOfThree(slave, delay, r0, r1, r2);
    } else {
      assert InputRequests[..4] == [r0, r1, r2, r3];
      ScheduleOfFour(slave, delay, r0, r1, r2, r3);
    }
  }

  /** The responses of a `read_all` that succeeds: each batch's block of input registers. */
  lemma ReadAllResponses(dev: Device, slave: U8, n: nat, delay: nat) returns (rsps: seq<seq<Word>>)
    requires ReadAllRun(dev, slave, n, delay).result.Success?
    ensures |rsps| == BatchCount
    ensures forall k :: 0 <= k < BatchCount ==>
      Covers(dev.input, BatchOffset(k), BatchQuantity(k)) && rsps[k] == Block(dev.input, BatchOffset(k), BatchQuantity(k))
    ensures BatchResponses(rsps) && ReadAllRun(dev, slave, n, delay).result.value == DecodeAllValues(rsps)
  {
    rsps := [Answer(dev, n, InputRead(0)).value, Answer(dev, n + 1, InputRead(1)).value,
             Answer(dev, n + 2, InputRead(2)).value, Answer(dev, n + 3, InputRead(3)).value];
  }

  /** A measurement's words, cut from the block its batch read, are the block at its own address. */
  lemma SliceOfBlocks(mem: map<nat, Word>, rsps: seq<seq<Word>>, m: Measurement)
    requires |rsps| == BatchCount
    requires forall k :: 0 <= k < BatchCount ==>
      Covers(mem, BatchOffset(k), BatchQuantity(k)) && rsps[k] == Block(mem, BatchOffset(k), BatchQuantity(k))
    ensures Covers(mem, MeasurementAddress(m), 2)
    ensures BatchResponses(rsps) && Slice(rsps, m) == Block(mem, MeasurementAddress(m), 2)
  {
    var k, p := BatchOf(m), MeasurementParam(m);
    assert Covers(mem, BatchOffset(k), BatchQuantity(k)) && rsps[k] == Block(mem, BatchOffset(k), BatchQuantity(k));
    MeasurementInBatch(m);
    SubsetOfBlock(mem, BatchOffset(k), BatchQuantity(k), p);
  }

  /** The field `p` cut from a block read from `offset` on is the block at `p`'s own address. */
  lemma SubsetOfBlock(mem: map<nat, Word>, offset: U16, quantity: nat, p: Param)
    requires Covers(mem, offset, quantity) && offset <= p.address && p.address - offset + p.quantity <= quantity
    ensures Covers(mem, p.address, p.quantity)
    ensures Subset(Block(mem, offset, quantity), offset, p) == Block(mem, p.address, p.quantity)
  {
    BlockSlice(mem, offset, quantity, p.address - offset, p.address - offset + p.quantity);
  }

  /**
   * `read_all` returns, for every measurement, the `f32` stored at that
   * measurement's own address: the four batches together cover all of them.
   */
  lemma ReadAllValues(dev: Device, slave: U8, n: nat, delay: nat)
    requires ReadAllRun(dev, slave, n, delay).result.Success?
    ensures forall m :: Covers(dev.input, MeasurementAddress(m), 2)
    ensures var readings := ReadAllRun(dev, slave, n, delay).result.value.readings;
      forall m :: m in readings && readings[m] == Pattern(F32, Block(dev.input, MeasurementAddress(m), 2))
  {
    var rsps := ReadAllResponses(dev, slave, n, delay);
    DecodeAllValuesReadings(rsps);
    forall m
      ensures Covers(dev.input, MeasurementAddress(m), 2)
      ensures Slice(rsps, m) == Block(dev.input, MeasurementAddress(m), 2)
    {
      SliceOfBlocks(dev.input, rsps, m);
    }
  }

  /** Reading an identity register fails exactly when the device does not answer. */
  lemma IdentityReadFailure(dev: Device, slave: U8, n: nat, r: Register)
    requires IsIdentity(r)
    ensures var run := ReadHoldingRun(dev, slave, n, r);
      && (run.result.Failure? <==> Answer(dev, n, HoldingRead(r)).Failure?)
      && (run.result.Failure? ==> run.result.error == Answer(dev, n, HoldingRead(r)).error)
  {
    var answer := Answer(dev, n, HoldingRead(r));
    if answer.Success? {
      RegisterDescriptorsWellFormed(r);
      DecodeFailures(r, answer.value);
    }
  }

  /** The identity registers decode whenever the device answers them. */
  lemma IdentityAnswersDecode(dev: Device, n: nat)
    ensures Answer(dev, n + 1, HoldingRead(SerialNumberReg)).Success? ==>
      DecodeSerialNumber(Answer(dev, n + 1, HoldingRead(SerialNumberReg)).value).Success?
    ensures Answer(dev, n + 2, HoldingRead(MeterCodeReg)).Success? ==>
      DecodeMeterCode(Answer(dev, n + 2, HoldingRead(MeterCodeReg)).value).Success?
    ensures Answer(dev, n + 3, HoldingRead(SoftwareVersionReg)).Success? ==>
      DecodeSoftwareVersion(Answer(dev, n + 3, HoldingRead(SoftwareVersionReg)).value).Success?
  {
  }

  /**
   * `read_all_settings` sends the settings batch and the three identity
   * registers in order with a pause between two requests, stops at the first
   * request that fails and returns its error.
   */
  lemma SettingsReadsSchedule(dev: Device, slave: U8, n: nat, delay: nat)
    ensures var got := SettingsReads(dev, slave, n, delay);
      var k := FirstFailure(dev, n, SettingsRequests);
      && got.events == Schedule(slave, delay, Attempted(dev, n, SettingsRequests))
      && (got.result.Failure? <==> k < |SettingsRequests|)
      && (got.result.Failure? ==> k < |SettingsRequests| && got.result.error == Answer(dev, n + k, SettingsRequests[k]).error)
  {
    var r0, r1, r2, r3 := SettingsRead, HoldingRead(SerialNumberReg), HoldingRead(MeterCodeReg), HoldingRead(SoftwareVersionReg);
    assert SettingsRequests == [r0, r1, r2, r3];
    FirstFailureOfFour(dev, n, r0, r1, r2, r3);
    if Answer(dev, n, r0).Failure? {
      assert SettingsRequests[..1] == [r0];
    } else if Answer(dev, n + 1, r1).Failure? {
      assert SettingsRequests[..2] == [r0, r1];
      ScheduleOfTwo(slave, delay, r0, r1);
    } else if Answer(dev, n + 2, r2).Failure? {
      assert SettingsRequests[..3] == [r0, r1, r2];
      ScheduleOfThree(slave, delay, r0, r1, r2);
    } else {
      assert SettingsRequests[..4] == [r0, r1, r2, r3];
      ScheduleOfFour(slave, delay, r0, r1, r2, r3);
    }
  }

  /**
   * The same for the whole of `read_all_settings`, whose decoding sends
   * nothing: it fails with the first failed request's error, and when all
   * four requests are answered it fails exactly when a code-table field of
   * the batch holds no known code.
   */
  lemma ReadAllSettingsSchedule(dev: Device, slave: U8, n: nat, delay: nat)
    ensures var run := ReadAllSettingsRun(dev, slave, n, delay);
      var k := FirstFailure(dev, n, SettingsRequests);
      && run.events == Schedule(slave, delay, Attempted(dev, n, SettingsRequests))
      && (k < |SettingsRequests| ==> run.result == Failure(Answer(dev, n + k, SettingsRequests[k]).error))
      && (k == |SettingsRequests| ==>
            && Answer(dev, n, SettingsRead).Success?
            && (run.result.Failure? <==>
                  exists r: BatchedRegister :: IsEnumeration(r) && Decode(r, SettingsSlice(Answer(dev, n, SettingsRead).value, r)).Failure?))
  {
    SettingsReadsSchedule(dev, slave, n, delay);
    if FirstFailure(dev, n, SettingsRequests) == |SettingsRequests| {
      ReadAllSettingsDecoding(dev, slave, n, delay);
    }
  }

  /** What a `SettingsReads` that succeeds has read: the settings block and the identity answers. */
  lemma SettingsReadsValues(dev: Device, slave: U8, n: nat, delay: nat)
    requires SettingsReads(dev, slave, n, delay).result.Success?
    ensures Covers(dev.holding, SettingsOffset, SettingsQuantity)
    ensures var v := SettingsReads(dev, slave, n, delay).result.value;
      && v.0 == Block(dev.holding, SettingsOffset, SettingsQuantity)
      && Answer(dev, n + 1, HoldingRead(SerialNumberReg)).Success?
      && Answer(dev, n + 2, HoldingRead(MeterCodeReg)).Success?
      && Answer(dev, n + 3, HoldingRead(SoftwareVersionReg)).Success?
      && DecodeSerialNumber(Answer(dev, n + 1, HoldingRead(SerialNumberReg)).value) == Success(v.1)
      && DecodeMeterCode(Answer(dev, n + 2, HoldingRead(MeterCodeReg)).value) == Success(v.2)
      && DecodeSoftwareVersion(Answer(dev, n + 3, HoldingRead(SoftwareVersionReg)).value) == Success(v.3)
  {
    IdentityAnswersDecode(dev, n);
  }

  /** Reading an identity register alone gives what an answered read of it decoded to. */
  lemma IdentityFieldRead(dev: Device, slave: U8, j: nat, m: nat, s: AllSettings)
    requires m !in dev.lost
    ensures Answer(dev, j, HoldingRead(SerialNumberReg)).Success? &&
            DecodeSerialNumber(Answer(dev, j, HoldingRead(SerialNumberReg)).value) == Success(s.serialNumber) ==>
            ReadHoldingRun(dev, slave, m, SerialNumberReg).result == Success(Field(s, SerialNumberReg))
    ensures Answer(dev, j, HoldingRead(MeterCodeReg)).Success? &&
            DecodeMeterCode(Answer(dev, j, HoldingRead(MeterCodeReg)).value) == Success(s.meterCode) ==>
            ReadHoldingRun(dev, slave, m, MeterCodeReg).result == Success(Field(s, MeterCodeReg))
    ensures Answer(dev, j, HoldingRead(SoftwareVersionReg)).Success? &&
            DecodeSoftwareVersion(Answer(dev, j, HoldingRead(SoftwareVersionReg)).value) == Success(s.softwareVersion) ==>
            ReadHoldingRun(dev, slave, m, SoftwareVersionReg).result == Success(Field(s, SoftwareVersionReg))
  {
    IdentityAnswersDecode(dev, j);
  }

  /**
   * Once the device has answered all four requests, `read_all_settings` fails
   * exactly when a code-table field of the batch holds no known code, and then
   * with `Error::Protocol(InvalidValue)`.
   */
  lemma ReadAllSettingsDecoding(dev: Device, slave: U8, n: nat, delay: nat)
    requires FirstFailure(dev, n, SettingsRequests) == |SettingsRequests|
    ensures Answer(dev, n, SettingsRead).Success?
    ensures var run := ReadAllSettingsRun(dev, slave, n, delay);
      var batch := Answer(dev, n, SettingsRead).value;
      && (run.result.Failure? <==>
            exists r: BatchedRegister :: IsEnumeration(r) && Decode(r, SettingsSlice(batch, r)).Failure?)
      && (run.result.Failure? ==> run.result.error == Protocol(InvalidValue))
  {
    var r0, r1, r2, r3 := SettingsRead, HoldingRead(SerialNumberReg), HoldingRead(MeterCodeReg), HoldingRead(SoftwareVersionReg);
    assert SettingsRequests == [r0, r1, r2, r3];
    FirstFailureOfFour(dev, n, r0, r1, r2, r3);
    IdentityReadFailure(dev, slave, n + 1, SerialNumberReg);
    IdentityReadFailure(dev, slave, n + 2, MeterCodeReg);
    IdentityReadFailure(dev, slave, n + 3, SoftwareVersionReg);
    var batch := Answer(dev, n, SettingsRead).value;
    IdentityAnswersDecode(dev, n);
    DecodeAllSettingsFailure(batch,
      DecodeSerialNumber(Answer(dev, n + 1, r1).value).value,
      DecodeMeterCode(Answer(dev, n + 2, r2).value).value,
      DecodeSoftwareVersion(Answer(dev, n + 3, r3).value).value);
  }

  /** A register cut from the settings batch decodes as a read of that register alone. */
  lemma BatchedFieldRead(dev: Device, slave: U8, m: nat, r: BatchedRegister)
    requires Covers(dev.holding, SettingsOffset, SettingsQuantity)
    requires m !in dev.lost
    ensures ReadHoldingRun(dev, slave, m, r).result == Lift(Decode(r, SettingsSlice(Block(dev.holding, SettingsOffset, SettingsQuantity), r)))
  {
    SettingsSliceInBounds(r);
    var p := ParamOf(r);
    var lo := p.address - SettingsOffset;
    var whole := Block(dev.holding, SettingsOffset, SettingsQuantity);
    BlockSlice(dev.holding, SettingsOffset, SettingsQuantity, lo, lo + p.quantity);
    var words := Block(dev.holding, p.address, p.quantity);
    assert SettingsSlice(whole, r) == whole[lo..lo + p.quantity] == words;
    assert Answer(dev, m, HoldingRead(r)) == Success(words);
  }

  /**
   * Every field `read_all_settings` returns is what reading that register on
   * its own returns, whenever the link delivers that read.
   */
  lemma ReadAllSettingsFields(dev: Device, slave: U8, n: nat, delay: nat)
    requires ReadAllSettingsRun(dev, slave, n, delay).result.Success?
    ensures var s := ReadAllSettingsRun(dev, slave, n, delay).result.value;
      forall r: Register, m: nat :: m !in dev.lost ==> ReadHoldingRun(dev, slave, m, r).result == Success(Field(s, r))
  {
    var s := ReadAllSettingsRun(dev, slave, n, delay).result.value;
    var v := SettingsReads(dev, slave, n, delay).result.value;
    SettingsReadsValues(dev, slave, n, delay);
    assert DecodeAllSettings(v.0, v.1, v.2, v.3) == Success(s);
    DecodeAllSettingsFields(v.0, v.1, v.2, v.3, s);
    forall r: Register, m: nat | m !in dev.lost
      ensures ReadHoldingRun(dev, slave, m, r).result == Success(Field(s, r))
    {
      if r == SerialNumberReg {
        IdentityFieldRead(dev, slave, n + 1, m, s);
      } else if r == MeterCodeReg {
        IdentityFieldRead(dev, slave, n + 2, m, s);
      } else if r == SoftwareVersionReg {
        IdentityFieldRead(dev, slave, n + 3, m, s);
      } else {
        BatchedFieldRead(dev, slave, m, r);
      }
    }
  }

  // ---------------------------------------------------------------------------
  // Writes

  /** The holding registers of a meter that stores `words` from `address` on. */
  function Store(mem: map<nat, Word>, address: nat, words: seq<Word>): map<nat, Word>
    decreases |words|
  {
    if words == [] then mem else Store(mem[address := words[0]], address + 1, words[1..])
  }

  /** After the store, the words are at `address` on, and nothing outside them changed. */
  lemma {:induction false} StoreContents(mem: map<nat, Word>, address: nat, words: seq<Word>)
    ensures forall i: nat :: address <= i < address + |words| ==>
      i in Store(mem, address, words) && Store(mem, address, words)[i] == words[i - address]
    ensures forall i :: i in mem && !(address <= i < address + |words|) ==>
      i in Store(mem, address, words) && Store(mem, address, words)[i] == mem[i]
    decreases |words|
  {
    if words != [] {
      var mem' := mem[address := words[0]];
      var stored := Store(mem, address, words);
      assert stored == Store(mem', address + 1, words[1..]);
      StoreContents(mem', address + 1, words[1..]);
      forall i: nat | address <= i < address + |words|
        ensures i in stored && stored[i] == words[i - address]
      {
        if i > address {
          assert words[1..][i - (address + 1)] == words[i - address];
        } else {
          assert address in mem' && mem'[address] == words[0];
        }
      }
      forall i | i in mem && !(address <= i < address + |words|)
        ensures i in stored && stored[i] == mem[i]
      {
        assert i in mem' && mem'[i] == mem[i];
      }
    }
  }

  /** The block at `address` after the store is the words stored. */
  lemma StoreBlock(mem: map<nat, Word>, address: nat, words: seq<Word>)
    ensures Covers(Store(mem, address, words), address, |words|)
    ensures Block(Store(mem, address, words), address, |words|) == words
  {
    StoreContents(mem, address, words);
  }

  /** A register whose words are the code of `s` reads back as `s`, unless the code is a sentinel. */
  lemma ReadHoldingReadBack(dev: Device, slave: U8, n: nat, s: Setting)
    requires n !in dev.lost && !SentinelCollision(s)
    requires Covers(dev.holding, ParamOf(RegisterOf(s)).address, ParamOf(RegisterOf(s)).quantity)
    requires Block(dev.holding, ParamOf(RegisterOf(s)).address, ParamOf(RegisterOf(s)).quantity) == Encode(s)
    ensures ReadHoldingRun(dev, slave, n, RegisterOf(s)).result == Success(s)
  {
    SettingRoundTrip(s);
  }

  /**
   * `set_*` sends one write of the value's code at its register, and a meter
   * that stores it answers a later read of that register with the value set.
   */
  lemma SetThenRead(dev: Device, slave: U8, n: nat, m: nat, s: Setting)
    requires m !in dev.lost && !SentinelCollision(s)
    ensures var run := SetHoldingRun(dev, slave, n, s);
      && |run.events| == 1 && run.events[0].Sent? && run.events[0].request.Write?
      && run.events[0].request.address == ParamOf(RegisterOf(s)).address
      && ReadHoldingRun(dev.(holding := Store(dev.holding, run.events[0].request.address, run.events[0].request.words)),
                        slave, m, RegisterOf(s)).result == Success(s)
  {
    var p := ParamOf(RegisterOf(s));
    StoreBlock(dev.holding, p.address, Encode(s));
    ReadHoldingReadBack(dev.(holding := Store(dev.holding, p.address, Encode(s))), slave, m, s);
  }
}
