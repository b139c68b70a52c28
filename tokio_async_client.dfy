/**
 * `SDM72 { ctx }` of src/tokio_async_client.rs: the operations as `async`
 * methods of a client that owns its context. Each `.await` completes before
 * the next statement runs, so a call does what the synchronous one does; the
 * bodies are copies of those of src/tokio_sync.rs, and each method runs the
 * `TokioSync` model on the client's context.
 */
module TokioAsyncClient {
  import opened Wrappers
  import opened Words
  import opened Errors
  import opened Protocol
  import opened Batch
  import opened Transport
  import opened Session
  import TokioSync

  class Sdm72 {
    const ctx: Context

    /** `SDM72::new` (tokio_async_client.rs:42-44). */
    constructor (ctx: Context)
      ensures this.ctx == ctx
    {
      this.ctx := ctx;
    }

    /** `read_holding!` (tokio_async_client.rs:13-24). */
    method ReadHolding(r: Register) returns (res: Result<RegisterValue, Error>)
      modifies ctx`log
      ensures ctx.log == old(ctx.log) + ReadHoldingRun(ctx.device, ctx.slave, old(ctx.SentCount()), r).events
      ensures ctx.SentCount() == old(ctx.SentCount()) + 1
      ensures res == ReadHoldingRun(ctx.device, ctx.slave, old(ctx.SentCount()), r).result
    {
      res := TokioSync.ReadHolding(ctx, r);
    }

    /** `write_holding!` (tokio_async_client.rs:26-37). */
    method SetHolding(s: Setting) returns (res: Result<(), Error>)
      modifies ctx`log
      ensures ctx.log == old(ctx.log) + SetHoldingRun(ctx.device, ctx.slave, old(ctx.SentCount()), s).events
      ensures ctx.SentCount() == old(ctx.SentCount()) + 1
      ensures res == SetHoldingRun(ctx.device, ctx.slave, old(ctx.SentCount()), s).result
    {
      res := TokioSync.SetHolding(ctx, s);
    }

    /** `set_kppa` (tokio_async_client.rs:51-59). */
    method SetKppa(password: Password) returns (res: Result<(), Error>)
      modifies ctx`log
      ensures ctx.log == old(ctx.log) + SetKppaRun(ctx.device, ctx.slave, old(ctx.SentCount()), password).events
      ensures ctx.SentCount() == old(ctx.SentCount()) + 1
      ensures res == SetKppaRun(ctx.device, ctx.slave, old(ctx.SentCount()), password).result
    {
      res := TokioSync.SetKppa(ctx, password);
    }

    /** `reset_historical_data` (tokio_async_client.rs:76-84). */
    method ResetHistoricalData() returns (res: Result<(), Error>)
      modifies ctx`log
      ensures ctx.log == old(ctx.log) + ResetRun(ctx.device, ctx.slave, old(ctx.SentCount())).events
      ensures ctx.SentCount() == old(ctx.SentCount()) + 1
      ensures res == ResetRun(ctx.device, ctx.slave, old(ctx.SentCount())).result
    {
      res := TokioSync.ResetHistoricalData(ctx);
    }

    /** `read_all_settings` (tokio_async_client.rs:94-163). */
    method ReadAllSettings(delay: nat) returns (res: Result<AllSettings, Error>)
      modifies ctx`log
      ensures ctx.log == old(ctx.log) + ReadAllSettingsRun(ctx.device, ctx.slave, old(ctx.SentCount()), delay).events
      ensures res == ReadAllSettingsRun(ctx.device, ctx.slave, old(ctx.SentCount()), delay).result
    {
      res := TokioSync.ReadAllSettings(ctx, delay);
    }

    /** `read_all` (tokio_async_client.rs:170-409). */
    method ReadAll(delay: nat) returns (res: Result<AllValues, Error>)
      modifies ctx`log
      ensures ctx.log == old(ctx.log) + ReadAllRun(ctx.device, ctx.slave, old(ctx.SentCount()), delay).events
      ensures res == ReadAllRun(ctx.device, ctx.slave, old(ctx.SentCount()), delay).result
    {
      res := TokioSync.ReadAll(ctx, delay);
    }
  }
}
