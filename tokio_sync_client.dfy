/**
 * `SDM72 { ctx }` of src/tokio_sync_client.rs: the same operations as the free
 * functions of src/tokio_sync.rs, as methods of a client that owns its
 * context. The bodies in that file are copies of those of tokio_sync.rs, so
 * each method runs the `TokioSync` model on the client's context.
 */
module TokioSyncClient {
  import opened Wrappers
  import opened Words
  import opened Errors
  import opened Protocol
  import opened Batch
  import opened Transport
  import opened Session
  import TokioSync

  class Sdm72 {
    const ctx: Context

    /** `SDM72::new` (tokio_sync_client.rs:56-58). */
    constructor (ctx: Context)
      ensures this.ctx == ctx
    {
      this.ctx := ctx;
    }

    /** `read_holding!` (tokio_sync_client.rs:25-37). */
    method ReadHolding(r: Register) returns (res: Result<RegisterValue, Error>)
      modifies ctx`log
      ensures ctx.log == old(ctx.log) + ReadHoldingRun(ctx.device, ctx.slave, old(ctx.SentCount()), r).events
      ensures ctx.SentCount() == old(ctx.SentCount()) + 1
      ensures res == ReadHoldingRun(ctx.device, ctx.slave, old(ctx.SentCount()), r).result
    {
      res := TokioSync.ReadHolding(ctx, r);
    }

    /** `write_holding!` (tokio_sync_client.rs:40-52). */
    method SetHolding(s: Setting) returns (res: Result<(), Error>)
      modifies ctx`log
      ensures ctx.log == old(ctx.log) + SetHoldingRun(ctx.device, ctx.slave, old(ctx.SentCount()), s).events
      ensures ctx.SentCount() == old(ctx.SentCount()) + 1
      ensures res == SetHoldingRun(ctx.device, ctx.slave, old(ctx.SentCount()), s).result
    {
      res := TokioSync.SetHolding(ctx, s);
    }

    /** `set_kppa` (tokio_sync_client.rs:77-82). */
    method SetKppa(password: Password) returns (res: Result<(), Error>)
      modifies ctx`log
      ensures ctx.log == old(ctx.log) + SetKppaRun(ctx.device, ctx.slave, old(ctx.SentCount()), password).events
      ensures ctx.SentCount() == old(ctx.SentCount()) + 1
      ensures res == SetKppaRun(ctx.device, ctx.slave, old(ctx.SentCount()), password).result
    {
      res := TokioSync.SetKppa(ctx, password);
    }

    /** `reset_historical_data` (tokio_sync_client.rs:102-107). */
    method ResetHistoricalData() returns (res: Result<(), Error>)
      modifies ctx`log
      ensures ctx.log == old(ctx.log) + ResetRun(ctx.device, ctx.slave, old(ctx.SentCount())).events
      ensures ctx.SentCount() == old(ctx.SentCount()) + 1
      ensures res == ResetRun(ctx.device, ctx.slave, old(ctx.SentCount())).result
    {
      res := TokioSync.ResetHistoricalData(ctx);
    }

    /** `read_all_settings` (tokio_sync_client.rs:122-191). */
    method ReadAllSettings(delay: nat) returns (res: Result<AllSettings, Error>)
      modifies ctx`log
      ensures ctx.log == old(ctx.log) + ReadAllSettingsRun(ctx.device, ctx.slave, old(ctx.SentCount()), delay).events
      ensures res == ReadAllSettingsRun(ctx.device, ctx.slave, old(ctx.SentCount()), delay).result
    {
      res := TokioSync.ReadAllSettings(ctx, delay);
    }

    /** `read_all` (tokio_sync_client.rs:203-442). */
    method ReadAll(delay: nat) returns (res: Result<AllValues, Error>)
      modifies ctx`log
      ensures ctx.log == old(ctx.log) + ReadAllRun(ctx.device, ctx.slave, old(ctx.SentCount()), delay).events
      ensures res == ReadAllRun(ctx.device, ctx.slave, old(ctx.SentCount()), delay).result
    {
      res := TokioSync.ReadAll(ctx, delay);
    }
  }
}
