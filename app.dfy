/**
 * The command-line program of src/main.rs, as far as it decides what is sent
 * to the meter: the pause between requests on an RTU line, the authorization
 * gate in front of every command that changes the meter, which command sends
 * what, and the polling of the daemon. The program talks to the meter through
 * the `SDM72` of src/tokio_sync_client.rs (`TokioSyncClient.Sdm72`).
 *
 * Durations are counted in nanoseconds, the resolution of `std::time::Duration`.
 */
module App {
  import opened Wrappers
  import opened Words
  import opened Errors
  import opened Protocol
  import opened Batch
  import opened Transport
  import opened Session
  import opened TokioSyncClient
  import opened Polling

  // ---------------------------------------------------------------------------
  // RTU timing

  /** `Duration::from_micros(1_750)`: the shortest pause ever used on an RTU line. */
  const RtuDelayFloor: nat := 1_750_000

  const NanosPerMilli: nat := 1_000_000

  /**
   * `minimum_rtu_delay` (main.rs:105-117): three and a half character times of
   * eleven bits at the given rate, in whole milliseconds rounded down, and never
   * less than 1750 microseconds. The floor is taken exactly when the rounded
   * value is below 2 ms, so the result is fixed for every rate.
   */
  function MinimumRtuDelay(b: BaudRate): (d: nat)
    ensures d >= RtuDelayFloor
    ensures d == RtuDelayFloor || d % NanosPerMilli == 0
    ensures d != RtuDelayFloor ==>
      var ms := d / NanosPerMilli; ms * BaudRateToU16(b) <= 35 * 11 * 100 < (ms + 1) * BaudRateToU16(b)
    ensures d == RtuDelayFloor <==> 2 * BaudRateToU16(b) > 35 * 11 * 100
  {
    var ms := 35 * 11 * 100 / BaudRateToU16(b);
    var result := ms * NanosPerMilli;
    if result < RtuDelayFloor then RtuDelayFloor else result
  }

  /**
   * The minimum pause at each baud rate, as the unit test at main.rs:455-462
   * expects: 32, 16, 8, 4 and 2 ms, so the 1750 µs floor never applies to a
   * rate the meter supports.
   */
  lemma MinimumRtuDelayValues()
    ensures MinimumRtuDelay(B1200) == 32 * NanosPerMilli
    ensures MinimumRtuDelay(B2400) == 16 * NanosPerMilli
    ensures MinimumRtuDelay(B4800) == 8 * NanosPerMilli
    ensures MinimumRtuDelay(B9600) == 4 * NanosPerMilli
    ensures MinimumRtuDelay(B19200) == 2 * NanosPerMilli
    ensures forall b :: MinimumRtuDelay(b) > RtuDelayFloor
  {
    assert 35 * 11 * 100 / 1200 == 32;
    assert 35 * 11 * 100 / 2400 == 16;
    assert 35 * 11 * 100 / 4800 == 8;
    assert 35 * 11 * 100 / 9600 == 4;
    assert 35 * 11 * 100 / 19200 == 2;
  }

  /**
   * `check_rtu_delay` (main.rs:119-129): the user's delay, raised to the
   * minimum of the rate when it is shorter.
   */
  function CheckRtuDelay(delay: nat, b: BaudRate): (r: nat)
    ensures r >= delay && r >= MinimumRtuDelay(b)
    ensures r == delay || r == MinimumRtuDelay(b)
  {
    var minimum := MinimumRtuDelay(b);
    if delay < minimum then minimum else delay
  }

  /** A delay that already meets the minimum passes unchanged, so checking twice is checking once. */
  lemma CheckRtuDelayIdempotent(delay: nat, b: BaudRate)
    ensures delay >= MinimumRtuDelay(b) ==> CheckRtuDelay(delay, b) == delay
    ensures CheckRtuDelay(CheckRtuDelay(delay, b), b) == CheckRtuDelay(delay, b)
  {
  }

  /** `commandline::Connection`: a TCP socket or a serial RTU line at a baud rate. */
  datatype Connection = Tcp | Rtu(baudRate: BaudRate)

  /**
   * The delay `main` uses between requests (main.rs:155-168, 183): the minimum
   * is enforced on an RTU line only.
   */
  function EffectiveDelay(conn: Connection, delay: nat): (r: nat)
    ensures conn.Tcp? ==> r == delay
    ensures conn.Rtu? ==> r >= delay && r >= MinimumRtuDelay(conn.baudRate)
    ensures conn.Rtu? && delay >= MinimumRtuDelay(conn.baudRate) ==> r == delay
  {
    match conn
    case Tcp => delay
    case Rtu(b) => CheckRtuDelay(delay, b)
  }

  // ---------------------------------------------------------------------------
  // Authorization

  /**
   * `ensure_authorization` (main.rs:131-146): read KPPA; unless it reads
   * `Authorized`, write the password, which the user types in (`password`
   * here). A failed read ends the command before anything is written.
   */
  function AuthorizationRun(dev: Device, slave: U8, n: nat, password: Password): (run: Run<()>)
    ensures 1 <= |run.events| <= 2
    ensures |run.events| == 2 ==> run.events[1] == Sent(slave, Write(0x000E, EncodeKppa(password)))
  {
    var check := ReadHoldingRun(dev, slave, n, KppaReg);
    if check.result.Failure? then Run(check.events, Failure(check.result.error))
    else if check.result.value == KppaValue(Authorized) then Run(check.events, Success(()))
    else
      var write := SetKppaRun(dev, slave, n + 1, password);
      Run(check.events + write.events, write.result)
  }

  /**
   * The gate reads KPPA first, and then writes the password at the KPPA
   * register exactly when the read succeeded with a state other than
   * `Authorized`; a failed read is the gate's error.
   */
  lemma AuthorizationGate(dev: Device, slave: U8, n: nat, password: Password)
    ensures var check := ReadHoldingRun(dev, slave, n, KppaReg);
      var run := AuthorizationRun(dev, slave, n, password);
      && |run.events| >= 1 && run.events[0] == Sent(slave, Read(Holding, 0x000E, 2))
      && (check.result.Failure? ==> run.events == [run.events[0]] && run.result == Failure(check.result.error))
      && (check.result == Success(KppaValue(Authorized)) ==> run.events == [run.events[0]] && run.result == Success(()))
      && (check.result == Success(KppaValue(NotAuthorized)) ==>
            && run.events == [run.events[0], Sent(slave, Write(0x000E, EncodeKppa(password)))]
            && run.result == WriteResult(dev, n + 1, 0x000E, EncodeKppa(password)))
  {
    AuthorizationReadsFirst(dev, slave, n, password);
    assert SetKppaRun(dev, slave, n + 1, password)
      == Run([Sent(slave, Write(0x000E, EncodeKppa(password)))], WriteResult(dev, n + 1, 0x000E, EncodeKppa(password)));
  }

  /** The gate's first request is the read of KPPA. */
  lemma AuthorizationReadsFirst(dev: Device, slave: U8, n: nat, password: Password)
    ensures var run := AuthorizationRun(dev, slave, n, password);
      |run.events| >= 1 && run.events[0] == Sent(slave, Read(Holding, 0x000E, 2))
  {
    assert HoldingRead(KppaReg) == Read(Holding, 0x000E, 2);
  }

  /** `ensure_authorization` on the client's context. */
  method EnsureAuthorization(d: Sdm72, password: Password) returns (res: Result<(), Error>)
    modifies d.ctx`log
    ensures d.ctx.log == old(d.ctx.log) + AuthorizationRun(d.ctx.device, d.ctx.slave, old(d.ctx.SentCount()), password).events
    ensures res == AuthorizationRun(d.ctx.device, d.ctx.slave, old(d.ctx.SentCount()), password).result
    ensures d.ctx.SentCount() == NextIndex(old(d.ctx.SentCount()), AuthorizationRun(d.ctx.device, d.ctx.slave, old(d.ctx.SentCount()), password))
  {
    ghost var n, log0 := d.ctx.SentCount(), d.ctx.log;
    var kppa := d.ReadHolding(KppaReg);
    if kppa.Failure? {
      return Failure(kppa.error);
    }
    if kppa.value != KppaValue(Authorized) {
      ghost var check, write := ReadHoldingRun(d.ctx.device, d.ctx.slave, n, KppaReg), SetKppaRun(d.ctx.device, d.ctx.slave, n + 1, password);
      ghost var log1 := d.ctx.log;
      assert log1 == log0 + check.events && d.ctx.SentCount() == n + 1;
      res := d.SetKppa(password);
      assert d.ctx.log == log1 + write.events;
      assert AuthorizationRun(d.ctx.device, d.ctx.slave, n, password) == Run(check.events + write.events, write.result);
    } else {
      res := Success(());
    }
  }

  // ---------------------------------------------------------------------------
  // Commands

  /** The values the `Set*` commands accept: every setting but the pulse width. */
  type CommandSetting = s: Setting | !s.PulseWidthValue? witness SystemTypeValue(Type3P4W)

  /**
   * The commands of `main` that write to the meter (main.rs:359-445). The
   * other two commands only call `read_all` or `read_all_settings` of the
   * client with the effective delay and print the result, and the daemon is
   * modelled by `Daemon`.
   */
  datatype Command =
    | PasswordCommand(password: Password)
    | SetCommand(setting: CommandSetting)
    | ResetHistoricalDataCommand

  /** The count of requests sent once `run`, whose events are all requests, has followed `n` of them. */
  function NextIndex(n: nat, run: Run<()>): nat
  {
    n + |run.events|
  }

  /** `ensure_authorization(&mut d)?` in front of a write: the write is sent only once the gate has passed. */
  function Gated(auth: Run<()>, write: Run<()>): (r: Run<()>)
    ensures auth.result.Failure? ==> r == auth
    ensures |auth.events| <= |r.events| && r.events[..|auth.events|] == auth.events
    ensures r.result.Success? ==> auth.result.Success? && r.result == write.result
  {
    if auth.result.Failure? then auth else Run(auth.events + write.events, write.result)
  }

  /** The write a command exists for. */
  function CommandWrite(cmd: Command): (w: Request)
    ensures w.Write?
  {
    match cmd
    case PasswordCommand(p) => Write(0x000E, EncodeKppa(p))
    case SetCommand(s) => Write(ParamOf(RegisterOf(s)).address, Encode(s))
    case ResetHistoricalDataCommand => Write(0xF010, [0x0003])
  }

  /**
   * The requests and the outcome of one writing command of `main`: the
   * `password` command writes KPPA at once, every other one passes the gate
   * first.
   */
  function CommandRun(dev: Device, slave: U8, n: nat, password: Password, cmd: Command): (run: Run<()>)
    ensures run.result.Success? ==> |run.events| >= 1 && run.events[|run.events| - 1] == Sent(slave, CommandWrite(cmd))
  {
    var w := CommandWrite(cmd);
    if cmd.PasswordCommand? then WriteRun(dev, slave, n, w.address, w.words)
    else
      var auth := AuthorizationRun(dev, slave, n, password);
      Gated(auth, WriteRun(dev, slave, NextIndex(n, auth), w.address, w.words))
  }

  /** The client operation each command calls sends the command's write. */
  lemma CommandWriteRun(dev: Device, slave: U8, n: nat, cmd: Command)
    ensures var w := CommandWrite(cmd);
      && (cmd.PasswordCommand? ==> SetKppaRun(dev, slave, n, cmd.password) == WriteRun(dev, slave, n, w.address, w.words))
      && (cmd.SetCommand? ==> SetHoldingRun(dev, slave, n, cmd.setting) == WriteRun(dev, slave, n, w.address, w.words))
      && (cmd.ResetHistoricalDataCommand? ==> ResetRun(dev, slave, n) == WriteRun(dev, slave, n, w.address, w.words))
  {
  }

  /**
   * Every command that changes a setting or resets the history first reads
   * KPPA. Its own write is the last request, and it is sent only after the
   * gate passed; when the gate fails the command ends with the gate's error.
   * Once the gate has passed, the command's outcome is that of its write.
   */
  lemma GatedCommandsAuthorizeFirst(dev: Device, slave: U8, n: nat, password: Password, cmd: Command)
    requires !cmd.PasswordCommand?
    ensures var run := CommandRun(dev, slave, n, password, cmd);
      var auth := AuthorizationRun(dev, slave, n, password);
      var w := CommandWrite(cmd);
      && |run.events| >= 1 && run.events[0] == Sent(slave, Read(Holding, 0x000E, 2))
      && (auth.result.Failure? ==> run == auth)
      && (auth.result.Success? ==>
            && run.events == auth.events + [Sent(slave, w)]
            && run.result == WriteResult(dev, n + |auth.events|, w.address, w.words))
  {
    var w := CommandWrite(cmd);
    GatedWriteAfterAuthorization(dev, slave, n, password, w.address, w.words);
  }

  /** The same for any write sent behind the gate. */
  lemma GatedWriteAfterAuthorization(dev: Device, slave: U8, n: nat, password: Password, address: U16, words: seq<Word>)
    ensures var auth := AuthorizationRun(dev, slave, n, password);
      var run := Gated(auth, WriteRun(dev, slave, NextIndex(n, auth), address, words));
      && |run.events| >= 1 && run.events[0] == Sent(slave, Read(Holding, 0x000E, 2))
      && (auth.result.Failure? ==> run == auth)
      && (auth.result.Success? ==>
            && run.events == auth.events + [Sent(slave, Write(address, words))]
            && run.result == WriteResult(dev, n + |auth.events|, address, words))
  {
    var auth := AuthorizationRun(dev, slave, n, password);
    assert |auth.events| >= 1 && auth.events[0] == Sent(slave, Read(Holding, 0x000E, 2)) by {
      AuthorizationReadsFirst(dev, slave, n, password);
    }
    GatedWriteShape(auth, dev, slave, n, address, words);
    var run := Gated(auth, WriteRun(dev, slave, NextIndex(n, auth), address, words));
    assert auth.result.Success? ==> run.result == WriteResult(dev, n + |auth.events|, address, words);
  }

  /** A write behind any gate `auth`: the gate's run alone on failure, the gate's events and then the write otherwise. */
  lemma GatedWriteShape(auth: Run<()>, dev: Device, slave: U8, n: nat, address: U16, words: seq<Word>)
    ensures var run := Gated(auth, WriteRun(dev, slave, NextIndex(n, auth), address, words));
      && (|auth.events| >= 1 ==> |run.events| >= 1 && run.events[0] == auth.events[0])
      && (auth.result.Failure? ==> run == auth)
      && (auth.result.Success? ==>
            && run.events == auth.events + [Sent(slave, Write(address, words))]
            && run.result == WriteResult(dev, n + |auth.events|, address, words))
  {
  }

  /** The `password` command writes KPPA directly, without reading it first. */
  lemma PasswordCommandWritesDirectly(dev: Device, slave: U8, n: nat, password: Password, p: Password)
    ensures CommandRun(dev, slave, n, password, PasswordCommand(p))
      == Run([Sent(slave, Write(0x000E, EncodeKppa(p)))], WriteResult(dev, n, 0x000E, EncodeKppa(p)))
  {
  }

  /** The client call a command other than `password` makes: its write. */
  method WriteCommand(d: Sdm72, cmd: Command) returns (res: Result<(), Error>)
    requires !cmd.PasswordCommand?
    modifies d.ctx`log
    ensures d.ctx.log == old(d.ctx.log) + [Sent(d.ctx.slave, CommandWrite(cmd))]
    ensures res == WriteResult(d.ctx.device, old(d.ctx.SentCount()), CommandWrite(cmd).address, CommandWrite(cmd).words)
  {
    CommandWriteRun(d.ctx.device, d.ctx.slave, d.ctx.SentCount(), cmd);
    if cmd.SetCommand? {
      res := d.SetHolding(cmd.setting);
    } else {
      res := d.ResetHistoricalData();
    }
  }

  /**
   * The rest of a command other than `password` once the gate `auth` has run
   * with outcome `gate`: its write, sent only when the gate passed. `run` is
   * the gate followed by that write.
   */
  method GatedWrite(d: Sdm72, cmd: Command, gate: Result<(), Error>, ghost auth: Run<()>, ghost n: nat, ghost log0: seq<Event>, ghost run: Run<()>)
    returns (res: Result<(), Error>)
    requires !cmd.PasswordCommand? && gate == auth.result
    requires d.ctx.log == log0 + auth.events && d.ctx.SentCount() == NextIndex(n, auth)
    requires run == Gated(auth, WriteRun(d.ctx.device, d.ctx.slave, NextIndex(n, auth), CommandWrite(cmd).address, CommandWrite(cmd).words))
    modifies d.ctx`log
    ensures d.ctx.log == log0 + run.events && res == run.result
  {
    if gate.Failure? {
      return gate;
    }
    res := WriteCommand(d, cmd);
  }

  /** A command other than `password` on the client: the gate, then the command's write. */
  method RunGatedCommand(d: Sdm72, password: Password, cmd: Command) returns (res: Result<(), Error>)
    requires !cmd.PasswordCommand?
    modifies d.ctx`log
    ensures d.ctx.log == old(d.ctx.log) + CommandRun(d.ctx.device, d.ctx.slave, old(d.ctx.SentCount()), password, cmd).events
    ensures res == CommandRun(d.ctx.device, d.ctx.slave, old(d.ctx.SentCount()), password, cmd).result
  {
    ghost var n, log0 := d.ctx.SentCount(), d.ctx.log;
    ghost var auth := AuthorizationRun(d.ctx.device, d.ctx.slave, n, password);
    ghost var run := CommandRun(d.ctx.device, d.ctx.slave, n, password, cmd);
    var gate := EnsureAuthorization(d, password);
    res := GatedWrite(d, cmd, gate, auth, n, log0, run);
  }

  /** `main`'s dispatch of one writing command on the client (main.rs:359-445). */
  method RunCommand(d: Sdm72, password: Password, cmd: Command) returns (res: Result<(), Error>)
    modifies d.ctx`log
    ensures d.ctx.log == old(d.ctx.log) + CommandRun(d.ctx.device, d.ctx.slave, old(d.ctx.SentCount()), password, cmd).events
    ensures res == CommandRun(d.ctx.device, d.ctx.slave, old(d.ctx.SentCount()), password, cmd).result
  {
    if cmd.PasswordCommand? {
      CommandWriteRun(d.ctx.device, d.ctx.slave, d.ctx.SentCount(), cmd);
      res := d.SetKppa(cmd.password);
    } else {
      res := RunGatedCommand(d, password, cmd);
    }
  }

  // ---------------------------------------------------------------------------
  // Daemon

  /** `delay.max(*poll_iterval)` (main.rs:215, 334): the pause after each poll. */
  function PollPause(delay: nat, pollInterval: nat): (r: nat)
    ensures r >= delay && r >= pollInterval
    ensures r == delay || r == pollInterval
  {
    if delay < pollInterval then pollInterval else delay
  }

  /** The daemon's poll: `read_all` from the `m`-th request on. */
  function ReadAllPoll(dev: Device, slave: U8, delay: nat): nat -> Run<AllValues>
  {
    (m: nat) => ReadAllRun(dev, slave, m, delay)
  }

  /** The number of requests `read_all` sends from the `m`-th request on: up to the first failure. */
  function ReadAllSends(dev: Device): nat -> nat
  {
    (m: nat) => |Attempted(dev, m, InputRequests)|
  }

  /**
   * The first `k` polls of the daemon's stdout loop (main.rs:205-216): each
   * reads all values and then pauses.
   */
  function DaemonRun(dev: Device, slave: U8, n: nat, delay: nat, pollInterval: nat, k: nat): (run: Run<seq<AllValues>>)
    ensures run.result.Success? ==> |run.result.value| == k
    ensures run.result.Success? && k > 0 ==> |run.events| >= 1 && run.events[|run.events| - 1] == Slept(PollPause(delay, pollInterval))
  {
    Polls(ReadAllPoll(dev, slave, delay), ReadAllSends(dev), PollPause(delay, pollInterval), n, k).run
  }

  /**
   * `read_all` sends the batches up to the first failure, so all four when
   * it succeeds.
   */
  lemma ReadAllPollRequests(dev: Device, slave: U8, n: nat, delay: nat)
    ensures var run := ReadAllRun(dev, slave, n, delay);
      && Requests(run.events) == Attempted(dev, n, InputRequests)
      && (run.result.Success? ==> Requests(run.events) == InputRequests)
  {
    ReadAllSchedule(dev, slave, n, delay);
  }

  /**
   * The daemon stops at the first failed read; each poll before it reads the
   * four input batches and ends with the pause `delay.max(poll_interval)`.
   */
  lemma DaemonProgress(dev: Device, slave: U8, n: nat, delay: nat, pollInterval: nat, k: nat)
    requires k > 0
    ensures var run := DaemonRun(dev, slave, n, delay, pollInterval, k);
      var prev := DaemonRun(dev, slave, n, delay, pollInterval, k - 1);
      && (prev.result.Failure? ==> run == prev)
      && (run.result.Success? ==>
            && prev.result.Success?
            && run.events[|run.events| - 1] == Slept(PollPause(delay, pollInterval))
            && Requests(run.events) == Requests(prev.events) + InputRequests)
  {
    var poll := ReadAllPoll(dev, slave, delay);
    forall m: nat | poll(m).result.Success?
      ensures Requests(poll(m).events) == InputRequests
    {
      ReadAllPollRequests(dev, slave, m, delay);
    }
    PollsProgress(poll, ReadAllSends(dev), PollPause(delay, pollInterval), n, k, InputRequests);
  }

  /**
   * One pass of the daemon's loop body (main.rs:206-215) from the `m`-th
   * request on: read all values, and pause unless the read failed, which
   * ends the loop.
   */
  method PollOnce(d: Sdm72, delay: nat, pause: nat, ghost m: nat) returns (v: Result<AllValues, Error>)
    requires d.ctx.SentCount() == m
    modifies d.ctx`log
    ensures var one := ReadAllPoll(d.ctx.device, d.ctx.slave, delay)(m);
      && v == one.result
      && d.ctx.log == old(d.ctx.log) + one.events + (if v.Success? then [Slept(pause)] else [])
      && d.ctx.SentCount() == m + ReadAllSends(d.ctx.device)(m)
  {
    ghost var log0 := d.ctx.log;
    v := d.ReadAll(delay);
    ReadAllPollRequests(d.ctx.device, d.ctx.slave, m, delay);
    RequestsAppend(log0, ReadAllRun(d.ctx.device, d.ctx.slave, m, delay).events);
    if v.Success? {
      d.ctx.Sleep(pause);
    }
  }

  /**
   * The state of the daemon's loop after `i` polls: the log holds them after
   * `log0`, the loop's result so far is theirs, and they sent the requests
   * from the `n`-th on.
   */
  ghost predicate PolledSoFar(d: Sdm72, delay: nat, pause: nat, n: nat, i: nat, log0: seq<Event>, res: Result<seq<AllValues>, Error>)
    reads d.ctx
  {
    var st := Polls(ReadAllPoll(d.ctx.device, d.ctx.slave, delay), ReadAllSends(d.ctx.device), pause, n, i);
    && d.ctx.log == log0 + st.run.events
    && st.run.result == res
    && d.ctx.SentCount() == n + st.sent
  }

  /** One more poll of the daemon's loop, after `i` successful ones. */
  method PollStep(d: Sdm72, delay: nat, pause: nat, ghost n: nat, ghost i: nat, ghost log0: seq<Event>, values: seq<AllValues>)
    returns (res: Result<seq<AllValues>, Error>)
    requires PolledSoFar(d, delay, pause, n, i, log0, Success(values))
    modifies d.ctx`log
    ensures PolledSoFar(d, delay, pause, n, i + 1, log0, res)
  {
    ghost var poll, sends := ReadAllPoll(d.ctx.device, d.ctx.slave, delay), ReadAllSends(d.ctx.device);
    ghost var m := n + Polls(poll, sends, pause, n, i).sent;
    var v := PollOnce(d, delay, pause, m);
    PollsExtend(poll, sends, pause, n, i, log0, d.ctx.log, values, poll(m));
    res := if v.Success? then Success(values + [v.value]) else Failure(v.error);
  }

  /**
   * The daemon's stdout loop (main.rs:205-216), for its first `polls` polls
   * (the program itself polls until a read fails). Printing the values is
   * not modelled.
   */
  method Daemon(d: Sdm72, delay: nat, pollInterval: nat, polls: nat) returns (res: Result<seq<AllValues>, Error>)
    modifies d.ctx`log
    ensures d.ctx.log == old(d.ctx.log) + DaemonRun(d.ctx.device, d.ctx.slave, old(d.ctx.SentCount()), delay, pollInterval, polls).events
    ensures res == DaemonRun(d.ctx.device, d.ctx.slave, old(d.ctx.SentCount()), delay, pollInterval, polls).result
  {
    ghost var n := d.ctx.SentCount();
    ghost var log0 := d.ctx.log;
    var pause := PollPause(delay, pollInterval);
    res := Success([]);
    var i := 0;
    while i < polls && res.Success?
      invariant i <= polls
      invariant PolledSoFar(d, delay, pause, n, i, log0, res)
    {
      res := PollStep(d, delay, pause, n, i, log0, res.value);
      i := i + 1;
    }
    if res.Failure? {
      PollsStop(ReadAllPoll(d.ctx.device, d.ctx.slave, delay), ReadAllSends(d.ctx.device), pause, n, i, polls);
    }
  }
}
