/**
 * `SDM72` of src/tokio_sync.rs: the meter's operations as functions of a
 * synchronous tokio-modbus context. Each method puts on the context's log
 * exactly the requests and pauses of its `Session` run, and returns that run's
 * result.
 */
module TokioSync {
  import opened Wrappers
  import opened Words
  import opened Errors
  import opened Protocol
  import opened Batch
  import opened Transport
  import opened Session

  /** `read_holding!`: one register read, then its decoding (tokio_sync.rs:49-60). */
  method ReadHolding(ctx: Context, r: Register) returns (res: Result<RegisterValue, Error>)
    modifies ctx`log
    ensures ctx.log == old(ctx.log) + ReadHoldingRun(ctx.device, ctx.slave, old(ctx.SentCount()), r).events
    ensures ctx.SentCount() == old(ctx.SentCount()) + 1
    ensures res == ReadHoldingRun(ctx.device, ctx.slave, old(ctx.SentCount()), r).result
  {
    var rsp := ctx.ReadHoldingRegisters(ParamOf(r).address, ParamOf(r).quantity);
    if rsp.Failure? {
      return Failure(rsp.error);
    }
    res := Lift(Decode(r, rsp.value));
  }

  /** `write_holding!`: the value's code written at its register (tokio_sync.rs:63-75). */
  method SetHolding(ctx: Context, s: Setting) returns (res: Result<(), Error>)
    modifies ctx`log
    ensures ctx.log == old(ctx.log) + SetHoldingRun(ctx.device, ctx.slave, old(ctx.SentCount()), s).events
    ensures ctx.SentCount() == old(ctx.SentCount()) + 1
    ensures res == SetHoldingRun(ctx.device, ctx.slave, old(ctx.SentCount()), s).result
  {
    res := ctx.WriteMultipleRegisters(ParamOf(RegisterOf(s)).address, Encode(s));
  }

  /** `set_kppa` (tokio_sync.rs:86-94). */
  method SetKppa(ctx: Context, password: Password) returns (res: Result<(), Error>)
    modifies ctx`log
    ensures ctx.log == old(ctx.log) + SetKppaRun(ctx.device, ctx.slave, old(ctx.SentCount()), password).events
    ensures ctx.SentCount() == old(ctx.SentCount()) + 1
    ensures res == SetKppaRun(ctx.device, ctx.slave, old(ctx.SentCount()), password).result
  {
    res := ctx.WriteMultipleRegisters(ParamOf(KppaReg).address, EncodeKppa(password));
  }

  /** `reset_historical_data` (tokio_sync.rs:114-119). */
  method ResetHistoricalData(ctx: Context) returns (res: Result<(), Error>)
    modifies ctx`log
    ensures ctx.log == old(ctx.log) + ResetRun(ctx.device, ctx.slave, old(ctx.SentCount())).events
    ensures ctx.SentCount() == old(ctx.SentCount()) + 1
    ensures res == ResetRun(ctx.device, ctx.slave, old(ctx.SentCount())).result
  {
    res := ctx.WriteMultipleRegisters(ResetHistoricalDataParam.address, EncodeResetHistoricalData());
  }

  /**
   * `std::thread::sleep(delay)` followed by one register read, the step
   * `read_all_settings` and `read_all` repeat after their first read.
   */
  method PauseThenRead(ctx: Context, delay: nat, space: Space, address: U16, quantity: U16) returns (r: Result<seq<Word>, Error>)
    modifies ctx`log
    ensures ctx.log == old(ctx.log) + [Slept(delay)] + [Sent(ctx.slave, Read(space, address, quantity))]
    ensures ctx.SentCount() == old(ctx.SentCount()) + 1
    ensures r == Answer(ctx.device, old(ctx.SentCount()), Read(space, address, quantity))
  {
    ctx.Sleep(delay);
    if space == Holding {
      r := ctx.ReadHoldingRegisters(address, quantity);
    } else {
      r := ctx.ReadInputRegisters(address, quantity);
    }
  }

  /** `read_all_settings` (tokio_sync.rs:138-210). */
  method ReadAllSettings(ctx: Context, delay: nat) returns (res: Result<AllSettings, Error>)
    modifies ctx`log
    ensures ctx.log == old(ctx.log) + ReadAllSettingsRun(ctx.device, ctx.slave, old(ctx.SentCount()), delay).events
    ensures res == ReadAllSettingsRun(ctx.device, ctx.slave, old(ctx.SentCount()), delay).result
  {
    ghost var n := ctx.SentCount();
    var rsp1 := ctx.ReadHoldingRegisters(SettingsOffset, SettingsQuantity);
    ghost var ev := [Sent(ctx.slave, SettingsRead)];
    if rsp1.Failure? {
      return Failure(rsp1.error);
    }
    var serial := PauseThenRead(ctx, delay, Holding, ParamOf(SerialNumberReg).address, ParamOf(SerialNumberReg).quantity);
    Paused(old(ctx.log), ev, Slept(delay), Sent(ctx.slave, HoldingRead(SerialNumberReg)));
    ev := ev + [Slept(delay)] + [Sent(ctx.slave, HoldingRead(SerialNumberReg))];
    if serial.Failure? {
      return Failure(serial.error);
    }
    IdentityAnswersDecode(ctx.device, n);
    var serialNumber := DecodeSerialNumber(serial.value).value;
    var meter := PauseThenRead(ctx, delay, Holding, ParamOf(MeterCodeReg).address, ParamOf(MeterCodeReg).quantity);
    Paused(old(ctx.log), ev, Slept(delay), Sent(ctx.slave, HoldingRead(MeterCodeReg)));
    ev := ev + [Slept(delay)] + [Sent(ctx.slave, HoldingRead(MeterCodeReg))];
    if meter.Failure? {
      return Failure(meter.error);
    }
    var meterCode := DecodeMeterCode(meter.value).value;
    var version := PauseThenRead(ctx, delay, Holding, ParamOf(SoftwareVersionReg).address, ParamOf(SoftwareVersionReg).quantity);
    Paused(old(ctx.log), ev, Slept(delay), Sent(ctx.slave, HoldingRead(SoftwareVersionReg)));
    ev := ev + [Slept(delay)] + [Sent(ctx.slave, HoldingRead(SoftwareVersionReg))];
    if version.Failure? {
      return Failure(version.error);
    }
    var softwareVersion := DecodeSoftwareVersion(version.value).value;
    assert SettingsReads(ctx.device, ctx.slave, n, delay) == Run(ev, Success((rsp1.value, serialNumber, meterCode, softwareVersion)));
    res := Lift(DecodeAllSettings(rsp1.value, serialNumber, meterCode, softwareVersion));
  }

  /** `read_all` (tokio_sync.rs:226-468). */
  method ReadAll(ctx: Context, delay: nat) returns (res: Result<AllValues, Error>)
    modifies ctx`log
    ensures ctx.log == old(ctx.log) + ReadAllRun(ctx.device, ctx.slave, old(ctx.SentCount()), delay).events
    ensures res == ReadAllRun(ctx.device, ctx.slave, old(ctx.SentCount()), delay).result
  {
    var rsp1 := ctx.ReadInputRegisters(BatchOffset(0), BatchQuantity(0));
    ghost var ev := [Sent(ctx.slave, InputRead(0))];
    if rsp1.Failure? {
      return Failure(rsp1.error);
    }
    var rsp2 := PauseThenRead(ctx, delay, Input, BatchOffset(1), BatchQuantity(1));
    Paused(old(ctx.log), ev, Slept(delay), Sent(ctx.slave, InputRead(1)));
    ev := ev + [Slept(delay)] + [Sent(ctx.slave, InputRead(1))];
    if rsp2.Failure? {
      return Failure(rsp2.error);
    }
    var rsp3 := PauseThenRead(ctx, delay, Input, BatchOffset(2), BatchQuantity(2));
    Paused(old(ctx.log), ev, Slept(delay), Sent(ctx.slave, InputRead(2)));
    ev := ev + [Slept(delay)] + [Sent(ctx.slave, InputRead(2))];
    if rsp3.Failure? {
      return Failure(rsp3.error);
    }
    var rsp4 := PauseThenRead(ctx, delay, Input, BatchOffset(3), BatchQuantity(3));
    Paused(old(ctx.log), ev, Slept(delay), Sent(ctx.slave, InputRead(3)));
    ev := ev + [Slept(delay)] + [Sent(ctx.slave, InputRead(3))];
    if rsp4.Failure? {
      return Failure(rsp4.error);
    }
    res := Success(DecodeAllValues([rsp1.value, rsp2.value, rsp3.value, rsp4.value]));
  }
}
