/** `consumer`: takes the events the resource handler queued, hands each to
    the event processor and settles it by the shared retry rule. */
module Consumer {
  import opened Wrappers
  import opened Events
  import opened Queue
  import opened Retry

  /** A queued value: nil, an `Event`, or a value of another type. */
  datatype Item = Nil | EventItem(event: Event) | Other(kind: string)

  /** A value that is not an `Event` is not handled; an event is handled
      by `process`, successfully when it returns nil. */
  function Judge(process: Event -> Outcome<string>): Item -> Verdict
  {
    (x: Item) => if !x.EventItem? then Skipped
         else if process(x.event).Pass? then Succeeded
         else Failed
  }

  class Consumer {
    /** The event processor's `Handle`. */
    const process: Event -> Outcome<string>
    const queue: FakeQueue<Item>

    /** `NewConsumer(ep, q)`. */
    constructor (process: Event -> Outcome<string>, queue: FakeQueue<Item>)
      ensures this.process == process && this.queue == queue
    {
      this.process := process;
      this.queue := queue;
    }

    /** `handleError(key, err)`: re-add while the key has been added fewer
        than `maxRequeue` times, otherwise forget it. */
    method HandleError(key: Item)
      modifies queue
      ensures queue.State() == AfterError(old(queue.State()), key)
    {
      if queue.NumRequeues(key) < MaxRetries {
        queue.AddRateLimited(key);
        return;
      }
      queue.Forget(key);
    }

    /** `processNextItem`: false iff the queue reports the shut-down;
        otherwise the front item is settled: only marked done when it is
        not an `Event`, and otherwise by the processor's answer. Returns the
        event handed to the processor, if any. `Get` waits on an empty
        queue that is not shut down, so the call is only made when an item
        is there or the queue is shut down. */
    method ProcessNextItem() returns (more: bool, handled: Option<Event>)
      requires queue.queue != [] || queue.done
      modifies queue
      ensures more <==> !old(queue.done)
      ensures !more ==> handled == None && queue.State() == old(queue.State())
      ensures more ==>
        var x := old(queue.queue)[0].value;
        Stepped(old(queue.State()), x, queue.State(), Judge(process)) &&
        handled == (if x.EventItem? then Some(x.event) else None)
    {
      var ev, quit := queue.Get();
      if quit {
        return false, None;
      }
      if !ev.EventItem? {
        queue.Done(ev);
        return true, None;
      }
      var e := ev.event;
      var err := process(e);
      if err.Fail? {
        HandleError(ev);
        queue.Done(ev);
        return true, Some(e);
      }
      queue.Forget(ev);
      queue.Done(ev);
      more, handled := true, Some(e);
    }

    /** `runWorker`: `processNextItem` until it reports false, here for up
        to `rounds` items (the ticks before the stop channel closes), and
        stopping where `Get` would wait on an empty queue. Returns the items
        taken from the queue. */
    method RunWorker(rounds: nat) returns (taken: seq<Item>)
      modifies queue
      ensures var r := Rounds(old(queue.State()), queue.nil, Judge(process), rounds);
        queue.State() == r.0 && taken == r.1
    {
      ghost var total := Rounds(queue.State(), queue.nil, Judge(process), rounds);
      OnTrackStart(queue.State(), queue.nil, Judge(process), rounds);
      taken := [];
      var left := rounds;
      while left > 0 && !queue.done && queue.queue != []
        invariant OnTrack(queue.State(), queue.nil, Judge(process), left, taken, total)
      {
        taken := WorkerRound(left, taken, total);
        left := left - 1;
      }
      OnTrackEnd(queue.State(), queue.nil, Judge(process), left, taken, total);
    }

    /** One round of `runWorker`: the front item is taken and handled, and
        the worker stays on course. */
    method WorkerRound(left: nat, taken: seq<Item>, ghost total: (Snapshot<Item>, seq<Item>)) returns (next: seq<Item>)
      requires left > 0 && !queue.done && queue.queue != []
      requires OnTrack(queue.State(), queue.nil, Judge(process), left, taken, total)
      modifies queue
      ensures OnTrack(queue.State(), queue.nil, Judge(process), left - 1, next, total)
    {
      var x := queue.queue[0].value;
      ghost var s := queue.State();
      var more, handled := ProcessNextItem();
      OnTrackStep(s, x, queue.State(), queue.nil, Judge(process), left, taken, total);
      next := taken + [x];
    }

    /** `Run(stopCh)`: the worker runs until the stop channel closes, then
        the queue is shut down. */
    method Run(rounds: nat) returns (taken: seq<Item>)
      modifies queue
      ensures var r := Rounds(old(queue.State()), queue.nil, Judge(process), rounds);
        queue.State() == r.0.(done := true) && taken == r.1
    {
      taken := RunWorker(rounds);
      queue.ShutDown();
    }
  }

  /** One event queued, a processor that fails on it, and `rounds >= 5`
      calls of `processNextItem`: the processor ran on every call, the
      event was added 5 times and forgotten on every call from the fifth
      on; with exactly 5 calls, 5 runs, 5 requeues and one forget. */
  method FailingEventRetried(ev: Event, rounds: nat) returns (taken: seq<Item>, requeues: nat, forgotten: nat)
    requires rounds >= MaxRetries
    ensures taken == Repeat(EventItem(ev), rounds)
    ensures requeues == MaxRetries && forgotten == rounds - MaxRetries + 1
  {
    var q := new FakeQueue<Item>(Nil);
    var fail := (e: Event) => Fail("foo error");
    var c := new Consumer(fail, q);
    q.Add(EventItem(ev));
    FailingItem(EventItem(ev), Nil, Judge(fail), rounds);
    taken := c.RunWorker(rounds);
    requeues := q.NumRequeues(EventItem(ev));
    forgotten := q.Forgotten(EventItem(ev));
  }

  /** One event queued and a processor that succeeds: one call handles it
      and forgets it once. */
  method SucceedingEventForgotten(ev: Event) returns (taken: seq<Item>, forgotten: nat)
    ensures taken == [EventItem(ev)] && forgotten == 1
  {
    var q := new FakeQueue<Item>(Nil);
    var succeed := (e: Event) => Pass;
    var c := new Consumer(succeed, q);
    q.Add(EventItem(ev));
    SucceedingItem(EventItem(ev), Nil, Judge(succeed), 1);
    taken := c.RunWorker(1);
    forgotten := q.Forgotten(EventItem(ev));
  }

  /** A queued value that is not an event is taken and only marked done:
      never forgotten, never re-added, and not handed to the processor. */
  method NonEventOnlyDone(process: Event -> Outcome<string>) returns (more: bool, handled: Option<Event>, requeues: nat, forgotten: nat)
    ensures more && handled == None && requeues == 1 && forgotten == 0
  {
    var q := new FakeQueue<Item>(Nil);
    var c := new Consumer(process, q);
    q.Add(Other("string"));
    more, handled := c.ProcessNextItem();
    requeues := q.NumRequeues(Other("string"));
    forgotten := q.Forgotten(Other("string"));
  }
}
