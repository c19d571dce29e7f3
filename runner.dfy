/** `runner`: a work queue whose worker hands every dequeued item to one
    handler and settles the item by the shared retry rule. */
module Runner {
  import opened Wrappers
  import opened Queue
  import opened Retry

  /** A nil error from the handler is a successful round, any other a
      failed one. */
  function Judge<T>(h: T -> Outcome<string>): T -> Verdict
  {
    x => if h(x).Pass? then Succeeded else Failed
  }

  class Runner<T(==)> {
    const queue: FakeQueue<T>
    var handle: Option<T -> Outcome<string>>

    /** `NewRunner()`: an empty queue and no handler yet. */
    constructor (nil: T)
      ensures fresh(queue) && queue.State() == Empty() && queue.nil == nil
      ensures handle == None
    {
      queue := new FakeQueue<T>(nil);
      handle := None;
    }

    /** `Process(e)`: only enqueues `e`. */
    method Process(e: T)
      modifies queue
      ensures queue.State() == Added(old(queue.State()), e)
    {
      queue.Add(e);
    }

    /** `processNextItem`: false when the queue reports the shut-down, and
        also when no handler is set (where the program exits before the
        deferred `Done`); otherwise the front item goes through the
        handler and is settled by the retry rule, and the answer is true.
        `Get` waits on an empty queue that is not shut down, so the call is
        only made when an item is there or the queue is shut down. */
    method ProcessNextItem() returns (more: bool, handled: Option<T>)
      requires queue.queue != [] || queue.done
      modifies queue
      ensures more <==> !old(queue.done) && handle.Some?
      ensures !more ==> handled == None && queue.State() == old(queue.State())
      ensures more ==>
        handled.Some? && Stepped(old(queue.State()), handled.value, queue.State(), Judge(handle.value))
    {
      var e, quit := queue.Get();
      if quit {
        return false, None;
      }
      if handle.None? {
        return false, None;
      }
      var err := handle.value(e);
      if err.Pass? {
        queue.Forget(e);
      } else if queue.NumRequeues(e) < MaxRetries {
        queue.AddRateLimited(e);
      } else {
        queue.Forget(e);
      }
      queue.Done(e);
      more, handled := true, Some(e);
    }

    /** `worker`: `processNextItem` until it reports false, here for up to
        `rounds` items (the ticks until the context ends), stopping where
        `Get` would wait on an empty queue. Returns the items handed to the
        handler. */
    method Worker(rounds: nat) returns (handled: seq<T>)
      requires handle.Some?
      modifies queue
      ensures var r := Rounds(old(queue.State()), queue.nil, Judge(handle.value), rounds);
        queue.State() == r.0 && handled == r.1
    {
      ghost var judge := Judge(handle.value);
      ghost var total := Rounds(queue.State(), queue.nil, judge, rounds);
      OnTrackStart(queue.State(), queue.nil, judge, rounds);
      handled := [];
      var left := rounds;
      while left > 0 && !queue.done && queue.queue != []
        invariant handle == old(handle)
        invariant OnTrack(queue.State(), queue.nil, judge, left, handled, total)
      {
        handled := WorkerRound(left, handled, total);
        left := left - 1;
      }
      OnTrackEnd(queue.State(), queue.nil, judge, left, handled, total);
    }

    /** One round of `worker`: the front item is handled, and the worker
        stays on course. */
    method WorkerRound(left: nat, handled: seq<T>, ghost total: (Snapshot<T>, seq<T>)) returns (next: seq<T>)
      requires handle.Some? && left > 0 && !queue.done && queue.queue != []
      requires OnTrack(queue.State(), queue.nil, Judge(handle.value), left, handled, total)
      modifies queue
      ensures OnTrack(queue.State(), queue.nil, Judge(handle.value), left - 1, next, total)
    {
      ghost var s := queue.State();
      var more, item := ProcessNextItem();
      OnTrackStep(s, item.value, queue.State(), queue.nil, Judge(handle.value), left, handled, total);
      next := handled + [item.value];
    }

    /** `Run(ctx, h)`: sets the handler, runs the worker, and shuts the
        queue down on the way out. */
    method Run(h: T -> Outcome<string>, rounds: nat) returns (handled: seq<T>)
      modifies this, queue
      ensures handle == Some(h)
      ensures var r := Rounds(old(queue.State()), queue.nil, Judge(h), rounds);
        queue.State() == r.0.(done := true) && handled == r.1
    {
      handle := Some(h);
      handled := Worker(rounds);
      queue.ShutDown();
    }
  }

  /** A handler that always fails on an item processed once: with at least
      `MaxRetries` ticks it is called on every tick, the item is re-added
      until it has been added `MaxRetries` times and then forgotten on each
      further tick. */
  method RetriesFailingItem(rounds: nat) returns (calls: seq<string>, requeues: nat, forgotten: nat)
    requires rounds >= MaxRetries
    ensures calls == Repeat("hello", rounds) && |calls| >= MaxRetries
    ensures requeues == MaxRetries && forgotten == rounds - MaxRetries + 1
  {
    var r := new Runner<string>("");
    r.Process("hello");
    var fail := (x: string) => Fail("foo error");
    FailingItem("hello", "", Judge(fail), rounds);
    calls := r.Run(fail, rounds);
    requeues := r.queue.NumRequeues("hello");
    forgotten := r.queue.Forgotten("hello");
  }

  /** A handler that succeeds is called once on an item processed once,
      however many ticks follow. */
  method HandlesSucceedingItemOnce(rounds: nat) returns (calls: seq<string>, forgotten: nat)
    requires rounds >= 1
    ensures calls == ["hello"] && forgotten == 1
  {
    var r := new Runner<string>("");
    r.Process("hello");
    var succeed := (x: string) => Pass;
    SucceedingItem("hello", "", Judge(succeed), rounds);
    calls := r.Run(succeed, rounds);
    forgotten := r.queue.Forgotten("hello");
  }
}
