/**
 * The part of a tokio-modbus client `Context` the SDM72 clients use: read
 * holding registers, read input registers, write multiple registers, and the
 * slave id requests are addressed to. `std::thread::sleep` between requests is
 * recorded in the same log, so that the order of requests and pauses is
 * observable.
 *
 * The meter is a value: its register contents, and the positions (counted in
 * requests sent on this context) at which the link loses a request. It answers
 * a read with exactly the requested words, or with the exception "illegal data
 * address" when a register is missing; writes do not change what it answers
 * later, since the meter's own reaction to a write is not part of the client.
 */
module Transport {
  import opened Wrappers
  import opened Words
  import opened Errors

  /** Modbus exception code 2, ILLEGAL DATA ADDRESS. */
  const IllegalDataAddress: nat := 2

  datatype Space = Holding | Input

  datatype Request =
    | Read(space: Space, address: U16, quantity: U16)
    | Write(address: U16, words: seq<Word>)

  datatype Event =
    | Sent(slave: U8, request: Request)
    | Slept(delay: nat)

  datatype Device = Device(holding: map<nat, Word>, input: map<nat, Word>, lost: set<nat>)

  /** The requests of a log, in the order they were sent. */
  function Requests(log: seq<Event>): (reqs: seq<Request>)
    ensures |reqs| <= |log|
  {
    if log == [] then []
    else if log[|log| - 1].Sent? then Requests(log[..|log| - 1]) + [log[|log| - 1].request]
    else Requests(log[..|log| - 1])
  }

  lemma {:induction false} RequestsAppend(a: seq<Event>, b: seq<Event>)
    ensures Requests(a + b) == Requests(a) + Requests(b)
  {
    if b != [] {
      assert (a + b)[..|a + b| - 1] == a + b[..|b| - 1];
      RequestsAppend(a, b[..|b| - 1]);
    } else {
      assert a + b == a;
    }
  }

  /** A pause after a log and some events adds no request. */
  lemma RequestsThenSleep(a: seq<Event>, b: seq<Event>, d: nat)
    ensures Requests(a + b + [Slept(d)]) == Requests(a) + Requests(b)
  {
    RequestsAppend(a, b);
    RequestsAppend(a + b, [Slept(d)]);
  }

  /** A pause and a request at the end of a log written as a prefix and the events after it. */
  lemma Paused(log: seq<Event>, events: seq<Event>, e: Event, f: Event)
    ensures log + events + [e] + [f] == log + (events + [e] + [f])
  {
  }

  predicate Covers(mem: map<nat, Word>, address: nat, quantity: nat)
  {
    forall i :: address <= i < address + quantity ==> i in mem
  }

  /** The `quantity` words stored from `address` on. */
  function Block(mem: map<nat, Word>, address: nat, quantity: nat): (ws: seq<Word>)
    requires Covers(mem, address, quantity)
    ensures |ws| == quantity
    ensures forall i :: 0 <= i < quantity ==> ws[i] == mem[address + i]
  {
    seq(quantity, i requires 0 <= i < quantity => mem[address + i])
  }

  /** A block read in one request holds the blocks of its sub-ranges. */
  lemma BlockSlice(mem: map<nat, Word>, address: nat, quantity: nat, lo: nat, hi: nat)
    requires Covers(mem, address, quantity) && lo <= hi <= quantity
    ensures Covers(mem, address + lo, hi - lo)
    ensures Block(mem, address, quantity)[lo..hi] == Block(mem, address + lo, hi - lo)
  {
  }

  /** The answer to the `n`-th request sent to the device. */
  function Answer(dev: Device, n: nat, req: Request): (r: Result<seq<Word>, Error>)
    ensures r.Success? && req.Read? ==> |r.value| == req.quantity
  {
    if n in dev.lost then Failure(Modbus)
    else
      match req
      case Read(space, address, quantity) =>
        var mem := if space == Holding then dev.holding else dev.input;
        if Covers(mem, address, quantity) then Success(Block(mem, address, quantity))
        else Failure(ModbusException(IllegalDataAddress))
      case Write(address, words) =>
        if Covers(dev.holding, address, |words|) then Success([])
        else Failure(ModbusException(IllegalDataAddress))
  }

  /**
   * The outcome of a write: the answer's error, or `()` once the device has
   * acknowledged it (the echo of address and count is not passed on).
   */
  function WriteResult(dev: Device, n: nat, address: U16, words: seq<Word>): (r: Result<(), Error>)
    ensures r.Success? <==> n !in dev.lost && Covers(dev.holding, address, |words|)
    ensures r.Failure? ==> r.error == if n in dev.lost then Modbus else ModbusException(IllegalDataAddress)
  {
    var answer := Answer(dev, n, Write(address, words));
    if answer.Success? then Success(()) else Failure(answer.error)
  }

  /** A tokio-modbus client context connected to one device. */
  class Context {
    const device: Device
    var slave: U8
    var log: seq<Event>

    constructor (device: Device, slave: U8)
      ensures this.device == device && this.slave == slave && log == []
    {
      this.device := device;
      this.slave := slave;
      log := [];
    }

    /** The number of requests sent on this context so far. */
    function SentCount(): nat
      reads this
    {
      |Requests(log)|
    }

    method Exchange(req: Request) returns (r: Result<seq<Word>, Error>)
      modifies this`log
      ensures log == old(log) + [Sent(slave, req)]
      ensures SentCount() == old(SentCount()) + 1
      ensures r == Answer(device, old(SentCount()), req)
    {
      r := Answer(device, SentCount(), req);
      RequestsAppend(log, [Sent(slave, req)]);
      log := log + [Sent(slave, req)];
    }

    method ReadHoldingRegisters(address: U16, quantity: U16) returns (r: Result<seq<Word>, Error>)
      modifies this`log
      ensures log == old(log) + [Sent(slave, Read(Holding, address, quantity))]
      ensures SentCount() == old(SentCount()) + 1
      ensures r == Answer(device, old(SentCount()), Read(Holding, address, quantity))
    {
      r := Exchange(Read(Holding, address, quantity));
    }

    method ReadInputRegisters(address: U16, quantity: U16) returns (r: Result<seq<Word>, Error>)
      modifies this`log
      ensures log == old(log) + [Sent(slave, Read(Input, address, quantity))]
      ensures SentCount() == old(SentCount()) + 1
      ensures r == Answer(device, old(SentCount()), Read(Input, address, quantity))
    {
      r := Exchange(Read(Input, address, quantity));
    }

    method WriteMultipleRegisters(address: U16, words: seq<Word>) returns (r: Result<(), Error>)
      modifies this`log
      ensures log == old(log) + [Sent(slave, Write(address, words))]
      ensures SentCount() == old(SentCount()) + 1
      ensures r == WriteResult(device, old(SentCount()), address, words)
    {
      var answer := Exchange(Write(address, words));
      r := if answer.Success? then Success(()) else Failure(answer.error);
    }

    /** `std::thread::sleep(delay)`: no request, one pause in the log. */
    method Sleep(delay: nat)
      modifies this`log
      ensures log == old(log) + [Slept(delay)]
      ensures SentCount() == old(SentCount())
    {
      RequestsAppend(log, [Slept(delay)]);
      log := log + [Slept(delay)];
    }

    /** `set_slave`: later requests go to `slave`. */
    method SetSlave(slave: U8)
      modifies this`slave
      ensures this.slave == slave
    {
      this.slave := slave;
    }
  }
}
