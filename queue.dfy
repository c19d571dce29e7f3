/** The in-memory work queue the retry loops run against: a linked list of
    queued elements, an index from an item to the element most recently
    queued for it, a count of the times each item was added and a count of
    the times each item was forgotten, plus a shut-down flag. A list element
    is identified by the serial number it was given when pushed, which
    stands for the element's pointer. */
module Queue {

  /** One list element: its identity and the item it carries. */
  datatype Element<T> = Element(id: nat, value: T)

  /** The whole state of a queue, as the functions below transform it. */
  datatype Snapshot<T> = Snapshot(
    queue: seq<Element<T>>,
    index: map<T, nat>,
    queuedTimes: map<T, nat>,
    forgottenTimes: map<T, nat>,
    done: bool,
    nextId: nat)

  /** A counter map read the Go way: a missing key reads as 0. */
  function Count<T(==)>(m: map<T, nat>, x: T): nat
  {
    if x in m then m[x] else 0
  }

  /** Element identities in a list are pairwise distinct. */
  ghost predicate DistinctIds<T>(q: seq<Element<T>>)
  {
    forall p, r | 0 <= p < r < |q| :: q[p].id != q[r].id
  }

  /** Element identities are below the next one to hand out, and unique. */
  ghost predicate FreshIds<T>(s: Snapshot<T>)
  {
    (forall k | 0 <= k < |s.queue| :: s.queue[k].id < s.nextId) && DistinctIds(s.queue)
  }

  /** Element identities are fresh and unique, and every indexed item
      points at an element of the list that carries it. */
  ghost predicate WellFormed<T>(s: Snapshot<T>)
  {
    FreshIds(s) &&
    (forall x | x in s.index :: Element(s.index[x], x) in s.queue)
  }

  /** `newFakeQueue()`. */
  function Empty<T(==)>(): (s: Snapshot<T>)
    ensures WellFormed(s) && s.queue == [] && !s.done
  {
    Snapshot([], map[], map[], map[], false, 0)
  }

  /** `Add(item)`: push a new element at the back, index it for the item
      (replacing any earlier element of the item in the index) and count
      one more add. */
  function Added<T(==)>(s: Snapshot<T>, item: T): Snapshot<T>
  {
    Snapshot(s.queue + [Element(s.nextId, item)],
             s.index[item := s.nextId],
             s.queuedTimes[item := Count(s.queuedTimes, item) + 1],
             s.forgottenTimes, s.done, s.nextId + 1)
  }

  /** The list with the element of identity `id` unlinked. */
  function Without<T(==)>(q: seq<Element<T>>, id: nat): (r: seq<Element<T>>)
    ensures |r| <= |q|
  {
    if q == [] then []
    else (if q[0].id == id then [] else [q[0]]) + Without(q[1..], id)
  }

  /** `Done(item)`: unlink the element indexed for the item and drop the
      index entry; nothing happens for an item that is not indexed. */
  function Removed<T(==)>(s: Snapshot<T>, item: T): Snapshot<T>
  {
    if item !in s.index then s
    else s.(queue := Without(s.queue, s.index[item]), index := s.index - {item})
  }

  /** `Forget(item)`: `Done(item)` and one more forget. */
  function Forgot<T(==)>(s: Snapshot<T>, item: T): Snapshot<T>
  {
    var t := Removed(s, item);
    t.(forgottenTimes := t.forgottenTimes[item := Count(t.forgottenTimes, item) + 1])
  }

  /** The item `Get` hands out: the front one, or `nil` on an empty list. */
  function Front<T(==)>(s: Snapshot<T>, nil: T): T
  {
    if s.queue == [] then nil else s.queue[0].value
  }

  // ---------------------------------------------------------------------
  // Properties of the queue operations
  // ---------------------------------------------------------------------

  /** Adding keeps the queue well formed and puts the item last. */
  lemma AddedWellFormed<T>(s: Snapshot<T>, item: T)
    requires WellFormed(s)
    ensures WellFormed(Added(s, item))
    ensures Added(s, item).queue[|s.queue|] == Element(s.nextId, item)
    ensures Added(s, item).queue[..|s.queue|] == s.queue
  {
    var t := Added(s, item);
    forall x | x in t.index
      ensures Element(t.index[x], x) in t.queue
    {
      if x != item {
        assert Element(s.index[x], x) in s.queue;
      }
    }
  }

  /** Unlinking an identity that occurs nowhere changes nothing. */
  lemma {:induction false} WithoutAbsent<T>(q: seq<Element<T>>, id: nat)
    requires forall k | 0 <= k < |q| :: q[k].id != id
    ensures Without(q, id) == q
  {
    if q != [] {
      WithoutAbsent(q[1..], id);
    }
  }

  /** Unlinking an identity that occurs exactly once removes one element. */
  lemma {:induction false} WithoutOnce<T>(q: seq<Element<T>>, id: nat, k: nat)
    requires k < |q| && q[k].id == id
    requires forall p | 0 <= p < |q| && p != k :: q[p].id != id
    ensures Without(q, id) == q[..k] + q[k + 1..]
    decreases k
  {
    if k == 0 {
      WithoutAbsent(q[1..], id);
    } else {
      WithoutOnce(q[1..], id, k - 1);
      assert q[1..][..k - 1] == q[1..k];
      assert q[1..][k..] == q[k + 1..];
    }
  }

  /** Unlinking one element keeps the identities distinct. */
  lemma DropKeepsDistinctIds<T>(q: seq<Element<T>>, k: nat)
    requires k < |q| && DistinctIds(q)
    ensures DistinctIds(q[..k] + q[k + 1..])
  {
    var t := q[..k] + q[k + 1..];
    forall p, r | 0 <= p < r < |t|
      ensures t[p].id != t[r].id
    {
      var p' := if p < k then p else p + 1;
      var r' := if r < k then r else r + 1;
      assert t[p] == q[p'] && t[r] == q[r'];
    }
  }

  /** Done keeps the queue well formed; for an indexed item it unlinks
      exactly the one element the index points at, whatever its position,
      and for any other item it changes nothing. */
  lemma RemovedWellFormed<T>(s: Snapshot<T>, item: T)
    requires WellFormed(s)
    ensures WellFormed(Removed(s, item))
    ensures item !in s.index ==> Removed(s, item) == s
    ensures item in s.index ==> |Removed(s, item).queue| == |s.queue| - 1
  {
    if item in s.index {
      var id := s.index[item];
      var k :| 0 <= k < |s.queue| && s.queue[k] == Element(id, item);
      WithoutOnce(s.queue, id, k);
      DropKeepsDistinctIds(s.queue, k);
      var t := Removed(s, item);
      forall x | x in t.index
        ensures Element(t.index[x], x) in t.queue
      {
        var j :| 0 <= j < |s.queue| && s.queue[j] == Element(s.index[x], x);
        assert s.queue[j].id != id;
      }
    }
  }

  /** The items of a list, front first. */
  function Values<T>(q: seq<Element<T>>): (r: seq<T>)
    ensures |r| == |q| && forall k | 0 <= k < |q| :: r[k] == q[k].value
  {
    if q == [] then [] else [q[0].value] + Values(q[1..])
  }

  /** Every queued item is indexed at its own element, as happens when
      each item is added once. */
  ghost predicate Tracks<T>(s: Snapshot<T>)
  {
    forall k | 0 <= k < |s.queue| :: s.queue[k].value in s.index && s.index[s.queue[k].value] == s.queue[k].id
  }

  /** Adding an item that is not queued yet appends it to the items. */
  lemma AddedAppends<T>(s: Snapshot<T>, item: T)
    requires FreshIds(s) && Tracks(s) && item !in Values(s.queue)
    ensures FreshIds(Added(s, item)) && Tracks(Added(s, item))
    ensures Values(Added(s, item).queue) == Values(s.queue) + [item]
  {
    var t := Added(s, item);
    forall k | 0 <= k < |t.queue|
      ensures t.queue[k].value in t.index && t.index[t.queue[k].value] == t.queue[k].id
    {
      if k < |s.queue| {
        assert s.queue[k].value == Values(s.queue)[k];
      }
    }
  }

  /** The snapshot with its front element unlinked and its item
      un-indexed. */
  function Popped<T>(s: Snapshot<T>): Snapshot<T>
    requires s.queue != []
  {
    s.(queue := s.queue[1..], index := s.index - {s.queue[0].value})
  }

  /** Unlinking the front element keeps identities fresh and every other
      queued item indexed at its own element. */
  lemma PoppedTracks<T>(s: Snapshot<T>)
    requires FreshIds(s) && Tracks(s) && s.queue != []
    ensures FreshIds(Popped(s)) && Tracks(Popped(s))
  {
    var front := s.queue[0];
    var rest := s.queue[1..];
    var t := Popped(s);
    forall k | 0 <= k < |rest|
      ensures rest[k].id < t.nextId
    {
      assert rest[k] == s.queue[k + 1];
    }
    forall p, r | 0 <= p < r < |rest|
      ensures rest[p].id != rest[r].id
    {
      assert rest[p] == s.queue[p + 1] && rest[r] == s.queue[r + 1];
    }
    forall k | 0 <= k < |rest|
      ensures rest[k].value in t.index && t.index[rest[k].value] == rest[k].id
    {
      assert rest[k] == s.queue[k + 1];
      assert s.index[rest[k].value] == rest[k].id != front.id;
    }
  }

  /** Done on the front item pops the front: the queue is first in, first
      out. */
  lemma RemovedPops<T>(s: Snapshot<T>)
    requires FreshIds(s) && Tracks(s) && s.queue != []
    ensures FreshIds(Removed(s, s.queue[0].value)) && Tracks(Removed(s, s.queue[0].value))
    ensures Values(Removed(s, s.queue[0].value).queue) == Values(s.queue)[1..]
  {
    var front := s.queue[0];
    assert s.index[front.value] == front.id;
    WithoutOnce(s.queue, front.id, 0);
    assert Removed(s, front.value) == Popped(s);
    PoppedTracks(s);
    assert Values(s.queue[1..]) == Values(s.queue)[1..];
  }

  /** Forget keeps the queue well formed. */
  lemma ForgotWellFormed<T>(s: Snapshot<T>, item: T)
    requires WellFormed(s)
    ensures WellFormed(Forgot(s, item))
    ensures Forgot(s, item).queue == Removed(s, item).queue
  {
    RemovedWellFormed(s, item);
  }

  /** The operations that change a queue, as a caller issues them.
      `AddRateLimited` and `AddAfter` are `Add`. */
  datatype Op<T> = AddOp(item: T) | DoneOp(item: T) | ForgetOp(item: T)

  function Apply<T(==)>(s: Snapshot<T>, op: Op<T>): Snapshot<T>
  {
    match op
    case AddOp(x) => Added(s, x)
    case DoneOp(x) => Removed(s, x)
    case ForgetOp(x) => Forgot(s, x)
  }

  /** The queue after issuing `ops` in order on `s`. */
  function Replay<T(==)>(s: Snapshot<T>, ops: seq<Op<T>>): Snapshot<T>
  {
    if ops == [] then s else Apply(Replay(s, ops[..|ops| - 1]), ops[|ops| - 1])
  }

  /** How many times `ops` adds `x`. */
  function Adds<T(==)>(ops: seq<Op<T>>, x: T): nat
  {
    if ops == [] then 0
    else Adds(ops[..|ops| - 1], x) + (if ops[|ops| - 1] == AddOp(x) then 1 else 0)
  }

  /** How many times `ops` forgets `x`. */
  function Forgets<T(==)>(ops: seq<Op<T>>, x: T): nat
  {
    if ops == [] then 0
    else Forgets(ops[..|ops| - 1], x) + (if ops[|ops| - 1] == ForgetOp(x) then 1 else 0)
  }

  /** `NumRequeues(x)` is the number of times `x` was ever added, and
      `forgotten(x)` the number of times it was forgotten: neither `Done`
      nor `Forget` resets the add count, and nothing resets the other. */
  lemma {:induction false} CountersCountCalls<T>(ops: seq<Op<T>>, x: T)
    ensures Count(Replay(Empty(), ops).queuedTimes, x) == Adds(ops, x)
    ensures Count(Replay(Empty(), ops).forgottenTimes, x) == Forgets(ops, x)
  {
    if ops != [] {
      CountersCountCalls(ops[..|ops| - 1], x);
    }
  }

  /** Every sequence of operations leaves the queue well formed. */
  lemma {:induction false} ReplayWellFormed<T>(ops: seq<Op<T>>)
    ensures WellFormed(Replay(Empty(), ops))
  {
    if ops != [] {
      var s := Replay(Empty(), ops[..|ops| - 1]);
      ReplayWellFormed(ops[..|ops| - 1]);
      match ops[|ops| - 1]
      case AddOp(x) => AddedWellFormed(s, x);
      case DoneOp(x) => RemovedWellFormed(s, x);
      case ForgetOp(x) => ForgotWellFormed(s, x);
    }
  }

  // ---------------------------------------------------------------------
  // fakeQueue
  // ---------------------------------------------------------------------

  /** `fakeQueue`: the fields the queue functions above describe, updated in
      place. `nil` is the item type's zero value, which `Get` returns when
      the list is empty. */
  class FakeQueue<T(==)> {
    const nil: T
    var queue: seq<Element<T>>
    var index: map<T, nat>
    var queuedTimes: map<T, nat>
    var forgottenTimes: map<T, nat>
    var done: bool
    var nextId: nat

    function State(): Snapshot<T>
      reads this
    {
      Snapshot(queue, index, queuedTimes, forgottenTimes, done, nextId)
    }

    /** `newFakeQueue()`. */
    constructor (nil: T)
      ensures State() == Empty() && this.nil == nil
    {
      this.nil := nil;
      queue := [];
      index := map[];
      queuedTimes := map[];
      forgottenTimes := map[];
      done := false;
      nextId := 0;
    }

    /** `Add(item)`. */
    method Add(item: T)
      modifies this
      ensures State() == Added(old(State()), item)
    {
      queue := queue + [Element(nextId, item)];
      index := index[item := nextId];
      queuedTimes := queuedTimes[item := Count(queuedTimes, item) + 1];
      nextId := nextId + 1;
    }

    /** `Len()`: the number of elements still linked. */
    method Len() returns (n: int)
      ensures n == |queue|
    {
      n := |queue|;
    }

    /** `Get()`: the front item without unlinking it, and the shut-down
        flag; `nil` when the list is empty. The wait on an empty queue that
        is not shut down is not modelled. */
    method Get() returns (item: T, shutdown: bool)
      ensures item == Front(State(), nil) && shutdown == done
      ensures queue != [] ==> item == queue[0].value
      ensures queue == [] ==> item == nil
    {
      shutdown := done;
      if queue == [] {
        return nil, shutdown;
      }
      item := queue[0].value;
    }

    /** `Done(item)`. */
    method Done(item: T)
      modifies this
      ensures State() == Removed(old(State()), item)
    {
      if item !in index {
        return;
      }
      queue := Without(queue, index[item]);
      index := index - {item};
    }

    /** `ShutDown()`: only raises the flag. */
    method ShutDown()
      modifies this
      ensures State() == old(State()).(done := true)
    {
      done := true;
    }

    /** `ShutDownWithDrain()`: does nothing. */
    method ShutDownWithDrain()
    {
    }

    /** `ShuttingDown()`. */
    predicate ShuttingDown()
      reads this
    {
      done
    }

    /** `AddAfter(item, d)`: the delay is ignored. */
    method AddAfter(item: T, duration: int)
      modifies this
      ensures State() == Added(old(State()), item)
    {
      Add(item);
    }

    /** `AddRateLimited(item)`: no rate limit, a plain `Add`. */
    method AddRateLimited(item: T)
      modifies this
      ensures State() == Added(old(State()), item)
    {
      Add(item);
    }

    /** `Forget(item)`. */
    method Forget(item: T)
      modifies this
      ensures State() == Forgot(old(State()), item)
    {
      Done(item);
      forgottenTimes := forgottenTimes[item := Count(forgottenTimes, item) + 1];
    }

    /** `NumRequeues(item)`: how many times the item was added. */
    function NumRequeues(item: T): nat
      reads this
    {
      Count(queuedTimes, item)
    }

    /** `forgotten(item)`: how many times the item was forgotten. */
    function Forgotten(item: T): nat
      reads this
    {
      Count(forgottenTimes, item)
    }
  }

  /** The queue holds exactly `jobs[lo..hi]`, front first, each added once. */
  ghost predicate Holds<T>(q: FakeQueue<T>, jobs: seq<T>, lo: nat, hi: nat)
    reads q
  {
    lo <= hi <= |jobs| && FreshIds(q.State()) && Tracks(q.State()) && !q.done &&
    |q.queue| == hi - lo && forall i | 0 <= i < hi - lo :: q.queue[i].value == jobs[lo + i]
  }

  /** No job occurs twice. */
  ghost predicate Distinct<T>(jobs: seq<T>)
  {
    forall p, r | 0 <= p < r < |jobs| :: jobs[p] != jobs[r]
  }

  /** `Add` of the next of a list of distinct jobs. */
  method Push<T(==)>(q: FakeQueue<T>, jobs: seq<T>, i: nat)
    requires i < |jobs| && Distinct(jobs) && Holds(q, jobs, 0, i)
    modifies q
    ensures Holds(q, jobs, 0, i + 1)
  {
    assert jobs[i] !in Values(q.queue);
    AddedAppends(q.State(), jobs[i]);
    q.Add(jobs[i]);
  }

  /** `Get` then `Done` on the item it returned, and `Len`. */
  method Pop<T(==)>(q: FakeQueue<T>, ghost jobs: seq<T>, k: nat) returns (x: T, n: int)
    requires k < |jobs| && Holds(q, jobs, k, |jobs|)
    modifies q
    ensures x == jobs[k] && Holds(q, jobs, k + 1, |jobs|) && n == |jobs| - k - 1
  {
    RemovedPops(q.State());
    var shut;
    x, shut := q.Get();
    q.Done(x);
    n := q.Len();
  }

  /** `newFakeQueue()` followed by the `Add` of five distinct jobs. */
  method NewQueueOf<T(==)>(nil: T, jobs: seq<T>) returns (q: FakeQueue<T>)
    requires |jobs| == 5 && Distinct(jobs)
    ensures fresh(q) && Holds(q, jobs, 0, 5)
  {
    q := new FakeQueue<T>(nil);
    Push(q, jobs, 0);
    Push(q, jobs, 1);
    Push(q, jobs, 2);
    Push(q, jobs, 3);
    Push(q, jobs, 4);
  }

  /** Five distinct jobs added, then drained by `Get`/`Done` pairs: they
      come out in the order they went in, two are left after three pairs and
      none after five, and `Get` on the drained, shut-down queue reports the
      shut-down. */
  method DrainInOrder<T(==)>(nil: T, jobs: seq<T>)
    returns (taken: seq<T>, lenAfterThree: int, lenAfterFive: int, shut: bool)
    requires |jobs| == 5 && Distinct(jobs)
    ensures taken == jobs && lenAfterThree == 2 && lenAfterFive == 0 && shut
  {
    var q := NewQueueOf(nil, jobs);
    var k0, _ := Pop(q, jobs, 0);
    var k1, _ := Pop(q, jobs, 1);
    var k2, n := Pop(q, jobs, 2);
    lenAfterThree := n;
    var k3, _ := Pop(q, jobs, 3);
    var k4, m := Pop(q, jobs, 4);
    lenAfterFive := m;
    q.ShutDown();
    var _, s := q.Get();
    shut := s;
    taken := [k0, k1, k2, k3, k4];
    assert forall k | 0 <= k < 5 :: taken[k] == jobs[k];
  }
}
