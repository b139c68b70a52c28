/**
 * A loop that polls until a poll fails, each successful poll followed by a
 * pause: the run of its first polls as a function of the run of one poll.
 * The run of a poll depends on how many requests were sent before it, since
 * the device model loses requests by their position.
 */
module Polling {
  import opened Wrappers
  import opened Errors
  import opened Transport
  import opened Session

  /** The run of the first polls of a loop, and the number of requests they sent. */
  datatype Polled<T> = Polled(run: Run<seq<T>>, sent: nat)

  /**
   * The first `k` polls of a loop whose poll, from the `m`-th request on, is
   * the run `poll(m)` and sends `sends(m)` requests, followed by a pause of
   * `pause`; the first failed poll ends the loop with its error.
   */
  function Polls<T>(poll: nat -> Run<T>, sends: nat -> nat, pause: nat, n: nat, k: nat): (p: Polled<T>)
    ensures p.run.result.Success? ==> |p.run.result.value| == k
    decreases k
  {
    if k == 0 then Polled(Run([], Success([])), 0)
    else
      var prev := Polls(poll, sends, pause, n, k - 1);
      if prev.run.result.Failure? then prev
      else
        var m := n + prev.sent;
        var one := poll(m);
        if one.result.Failure? then Polled(Run(prev.run.events + one.events, Failure(one.result.error)), prev.sent + sends(m))
        else Polled(Run(prev.run.events + one.events + [Slept(pause)], Success(prev.run.result.value + [one.result.value])), prev.sent + sends(m))
  }

  /**
   * The `k`-th poll: nothing after a failure; otherwise the poll's events,
   * the pause when it succeeded, and its value or its error.
   */
  lemma PollsLast<T>(poll: nat -> Run<T>, sends: nat -> nat, pause: nat, n: nat, k: nat)
    requires k > 0
    ensures var p := Polls(poll, sends, pause, n, k);
      var prev := Polls(poll, sends, pause, n, k - 1);
      var one := poll(n + prev.sent);
      && (prev.run.result.Failure? ==> p == prev)
      && (prev.run.result.Success? ==>
            && p.sent == prev.sent + sends(n + prev.sent)
            && p.run.events == prev.run.events + one.events + (if one.result.Success? then [Slept(pause)] else [])
            && p.run.result == if one.result.Success? then Success(prev.run.result.value + [one.result.value]) else Failure(one.result.error))
  {
  }

  /** After the first failed poll the loop polls no more: later runs are the same run. */
  lemma {:induction false} PollsStop<T>(poll: nat -> Run<T>, sends: nat -> nat, pause: nat, n: nat, k: nat, k': nat)
    requires k <= k'
    requires Polls(poll, sends, pause, n, k).run.result.Failure?
    ensures Polls(poll, sends, pause, n, k') == Polls(poll, sends, pause, n, k)
    decreases k' - k
  {
    if k < k' {
      PollsStop(poll, sends, pause, n, k, k' - 1);
    }
  }

  /**
   * Each successful poll adds the requests every successful poll sends and
   * ends with the pause; after a failed poll there are no more.
   */
  lemma PollsProgress<T>(poll: nat -> Run<T>, sends: nat -> nat, pause: nat, n: nat, k: nat, reqs: seq<Request>)
    requires k > 0
    requires forall m :: poll(m).result.Success? ==> Requests(poll(m).events) == reqs
    ensures var run := Polls(poll, sends, pause, n, k).run;
      var prev := Polls(poll, sends, pause, n, k - 1).run;
      && (prev.result.Failure? ==> run == prev)
      && (run.result.Success? ==>
            && prev.result.Success?
            && run.events[|run.events| - 1] == Slept(pause)
            && Requests(run.events) == Requests(prev.events) + reqs)
  {
    PollsLast(poll, sends, pause, n, k);
    var prev := Polls(poll, sends, pause, n, k - 1);
    if prev.run.result.Success? {
      var one := poll(n + prev.sent);
      if one.result.Success? {
        assert Polls(poll, sends, pause, n, k).run.events == prev.run.events + one.events + [Slept(pause)];
        RequestsThenSleep(prev.run.events, one.events, pause);
      }
    }
  }

  /**
   * One more poll, written after a log that holds `log0` and the first `i`
   * polls, is the log that holds the first `i + 1` polls.
   */
  lemma PollsExtend<T>(poll: nat -> Run<T>, sends: nat -> nat, pause: nat, n: nat, i: nat, log0: seq<Event>, log: seq<Event>, values: seq<T>, one: Run<T>)
    requires Polls(poll, sends, pause, n, i).run.result == Success(values)
    requires one == poll(n + Polls(poll, sends, pause, n, i).sent)
    requires log == log0 + Polls(poll, sends, pause, n, i).run.events + one.events + (if one.result.Success? then [Slept(pause)] else [])
    ensures log == log0 + Polls(poll, sends, pause, n, i + 1).run.events
    ensures Polls(poll, sends, pause, n, i + 1).sent == Polls(poll, sends, pause, n, i).sent + sends(n + Polls(poll, sends, pause, n, i).sent)
    ensures Polls(poll, sends, pause, n, i + 1).run.result == if one.result.Success? then Success(values + [one.result.value]) else Failure(one.result.error)
  {
    PollsLast(poll, sends, pause, n, i + 1);
    var prev := Polls(poll, sends, pause, n, i);
    assert log == log0 + (prev.run.events + one.events + (if one.result.Success? then [Slept(pause)] else []));
  }
}
