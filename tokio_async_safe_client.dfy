/**
 * `SafeClient` of src/tokio_async_safe_client.rs: the asynchronous client
 * behind `Arc<tokio::sync::Mutex<_>>`. It delegates to `SDM72` of
 * src/tokio_async.rs, which is not part of this model; that type is taken to
 * send the same requests as src/tokio_sync.rs and src/tokio_async_client.rs
 * (the latter being the same code as methods), so every operation runs the
 * `TokioSync` model on the shared context. Awaiting is not modelled: with the
 * lock held across the awaits, an operation sees the context alone from its
 * first request to its last, as in the synchronous client.
 */
module TokioAsyncSafeClient {
  import opened Wrappers
  import opened Words
  import opened Errors
  import opened Protocol
  import opened Batch
  import opened Transport
  import opened Session
  import TokioSync

  class SafeClient {
    const ctx: Context

    /**
     * `SafeClient::new` (tokio_async_safe_client.rs:76-80) and
     * `SafeClient::from_shared` (tokio_async_safe_client.rs:86-88): a
     * client on the given context, shared with whoever else holds it.
     */
    constructor (ctx: Context)
      ensures this.ctx == ctx
    {
      this.ctx := ctx;
    }

    /**
     * `clone_shared` (tokio_async_safe_client.rs:94-96): a clone of the `Arc`, so the very
     * context object this client uses, not a copy of it; a client built on it
     * shares every request and every retarget with this one (`SharedRetarget`).
     */
    function SharedContext(): (c: Context)
      reads this
      ensures c == ctx
    {
      ctx
    }

    /** `read_holding!` (tokio_async_safe_client.rs:46-56). */
    method ReadHolding(r: Register) returns (res: Result<RegisterValue, Error>)
      modifies ctx`log
      ensures ctx.log == old(ctx.log) + ReadHoldingRun(ctx.device, ctx.slave, old(ctx.SentCount()), r).events
      ensures res == ReadHoldingRun(ctx.device, ctx.slave, old(ctx.SentCount()), r).result
    {
      res := TokioSync.ReadHolding(ctx, r);
    }

    /**
     * `write_holding!` (tokio_async_safe_client.rs:58-68), which this client
     * provides for every setting but the address (see `SetAddress`).
     */
    method SetHolding(s: Setting) returns (res: Result<(), Error>)
      requires !s.AddressValue?
      modifies ctx`log
      ensures ctx.log == old(ctx.log) + SetHoldingRun(ctx.device, ctx.slave, old(ctx.SentCount()), s).events
      ensures res == SetHoldingRun(ctx.device, ctx.slave, old(ctx.SentCount()), s).result
    {
      res := TokioSync.SetHolding(ctx, s);
    }

    /** `set_kppa` (tokio_async_safe_client.rs:107-110). */
    method SetKppa(password: Password) returns (res: Result<(), Error>)
      modifies ctx`log
      ensures ctx.log == old(ctx.log) + SetKppaRun(ctx.device, ctx.slave, old(ctx.SentCount()), password).events
      ensures res == SetKppaRun(ctx.device, ctx.slave, old(ctx.SentCount()), password).result
    {
      res := TokioSync.SetKppa(ctx, password);
    }

    /**
     * `set_address` (tokio_async_safe_client.rs:116-121): write the new address
     * to the meter, still addressed by its old slave id; once the write has
     * succeeded, later requests on the shared context go to the new id. A
     * failed write leaves the slave id as it was.
     */
    method SetAddress(value: Address) returns (res: Result<(), Error>)
      modifies ctx`log, ctx`slave
      ensures ctx.log == old(ctx.log) + SetHoldingRun(ctx.device, old(ctx.slave), old(ctx.SentCount()), AddressValue(value)).events
      ensures res == SetHoldingRun(ctx.device, old(ctx.slave), old(ctx.SentCount()), AddressValue(value)).result
      ensures ctx.slave == if res.Success? then value.id else old(ctx.slave)
    {
      res := TokioSync.SetHolding(ctx, AddressValue(value));
      if res.Success? {
        ctx.SetSlave(value.id);
      }
    }

    /** `reset_historical_data` (tokio_async_safe_client.rs:139-142). */
    method ResetHistoricalData() returns (res: Result<(), Error>)
      modifies ctx`log
      ensures ctx.log == old(ctx.log) + ResetRun(ctx.device, ctx.slave, old(ctx.SentCount())).events
      ensures res == ResetRun(ctx.device, ctx.slave, old(ctx.SentCount())).result
    {
      res := TokioSync.ResetHistoricalData(ctx);
    }

    /** `read_all_settings` (tokio_async_safe_client.rs:149-152). */
    method ReadAllSettings(delay: nat) returns (res: Result<AllSettings, Error>)
      modifies ctx`log
      ensures ctx.log == old(ctx.log) + ReadAllSettingsRun(ctx.device, ctx.slave, old(ctx.SentCount()), delay).events
      ensures res == ReadAllSettingsRun(ctx.device, ctx.slave, old(ctx.SentCount()), delay).result
    {
      res := TokioSync.ReadAllSettings(ctx, delay);
    }

    /** `read_all` (tokio_async_safe_client.rs:155-158). */
    method ReadAll(delay: nat) returns (res: Result<AllValues, Error>)
      modifies ctx`log
      ensures ctx.log == old(ctx.log) + ReadAllRun(ctx.device, ctx.slave, old(ctx.SentCount()), delay).events
      ensures res == ReadAllRun(ctx.device, ctx.slave, old(ctx.SentCount()), delay).result
    {
      res := TokioSync.ReadAll(ctx, delay);
    }
  }

  /**
   * Two clients on one shared context (`from_shared` of `clone_shared`): an address changed through one of them is the address
   * the other one's next request goes to, and that request follows the write
   * on the same log.
   */
  method SharedRetarget(a: SafeClient, value: Address, r: Register)
    returns (b: SafeClient, written: Result<(), Error>, read: Result<RegisterValue, Error>)
    modifies a.ctx`log, a.ctx`slave
    ensures fresh(b) && b.ctx == a.ctx
    ensures written.Success? ==> a.ctx.slave == value.id
    ensures written.Failure? ==> a.ctx.slave == old(a.ctx.slave)
    ensures a.ctx.log == old(a.ctx.log)
      + [Sent(old(a.ctx.slave), Write(0x0014, Encode(AddressValue(value))))]
      + [Sent(a.ctx.slave, HoldingRead(r))]
  {
    b := new SafeClient(a.SharedContext());
    written := a.SetAddress(value);
    WritesOnTheWire(a.ctx.device, old(a.ctx.slave), old(a.ctx.SentCount()), Password(0), value);
    read := b.ReadHolding(r);
  }
}
