/** The retry rule the work-queue consumers share: after the handler ran on
    an item, forget it on success; on failure re-add it while it has been
    added fewer than `MaxRetries` times, and forget it (dropping it) after
    that; then, deferred, mark it done. The functions here describe one such
    round and a run of rounds on the queue state of module `Queue`. */
module Retry {
  import opened Queue

  /** `maxRetries` and `maxRequeue`. */
  const MaxRetries: nat := 5

  /** How a round ends for the dequeued item: not handled at all (only
      marked done), handled successfully, or handled with an error. */
  datatype Verdict = Skipped | Succeeded | Failed

  /** What follows a handler error (`handleError`): re-add while the item
      has been added fewer than `MaxRetries` times, forget it after that. */
  function AfterError<T(==)>(s: Snapshot<T>, e: T): Snapshot<T>
  {
    if Count(s.queuedTimes, e) < MaxRetries then Added(s, e) else Forgot(s, e)
  }

  /** One round for item `e` after the handler's verdict, ending with the
      deferred `Done(e)`. */
  function Settled<T(==)>(s: Snapshot<T>, e: T, v: Verdict): Snapshot<T>
  {
    match v
    case Skipped => Removed(s, e)
    case Succeeded => Removed(Forgot(s, e), e)
    case Failed => Removed(AfterError(s, e), e)
  }

  /** Up to `n` rounds on the front item, judged by `judge`, and the items
      handed out, in order. Rounds stop once the queue is shut down, and
      also once it is empty, where `Get` would park the worker. */
  function Rounds<T(==)>(s: Snapshot<T>, nil: T, judge: T -> Verdict, n: nat): (r: (Snapshot<T>, seq<T>))
    ensures |r.1| <= n
    ensures s.done || s.queue == [] ==> r == (s, [])
    decreases n
  {
    if n == 0 || s.done || s.queue == [] then (s, [])
    else
      var e := s.queue[0].value;
      var rest := Rounds(Settled(s, e, judge(e)), nil, judge, n - 1);
      (rest.0, [e] + rest.1)
  }

  /** `e` is the front item of `s`, and `t` is what settling it by its
      verdict leaves. */
  predicate Stepped<T(==)>(s: Snapshot<T>, e: T, t: Snapshot<T>, judge: T -> Verdict)
  {
    s.queue != [] && e == s.queue[0].value && t == Settled(s, e, judge(e))
  }

  /** A worker that has handed out `handled` and has `n` rounds left is on
      course to end in `total`. */
  predicate OnTrack<T(==)>(s: Snapshot<T>, nil: T, judge: T -> Verdict, n: nat, handled: seq<T>, total: (Snapshot<T>, seq<T>))
  {
    var r := Rounds(s, nil, judge, n); r.0 == total.0 && handled + r.1 == total.1
  }

  /** A worker that has not started is on course for all its rounds. */
  lemma OnTrackStart<T>(s: Snapshot<T>, nil: T, judge: T -> Verdict, n: nat)
    ensures OnTrack(s, nil, judge, n, [], Rounds(s, nil, judge, n))
  {
    var r := Rounds(s, nil, judge, n);
    assert [] + r.1 == r.1;
  }

  /** A worker with no rounds left, or facing a shut-down or empty queue,
      has arrived. */
  lemma OnTrackEnd<T>(s: Snapshot<T>, nil: T, judge: T -> Verdict, n: nat, handled: seq<T>, total: (Snapshot<T>, seq<T>))
    requires OnTrack(s, nil, judge, n, handled, total)
    requires n == 0 || s.done || s.queue == []
    ensures s == total.0 && handled == total.1
  {
    assert handled + [] == handled;
  }

  /** Taking one round off a run of rounds: the front item is handed out
      and the snapshot it settles into is on course for the rest. */
  lemma OnTrackStep<T>(s: Snapshot<T>, e: T, t: Snapshot<T>, nil: T, judge: T -> Verdict, n: nat, handled: seq<T>, total: (Snapshot<T>, seq<T>))
    requires n > 0 && !s.done
    requires OnTrack(s, nil, judge, n, handled, total)
    requires Stepped(s, e, t, judge)
    ensures OnTrack(t, nil, judge, n - 1, handled + [e], total)
  {
    var r := Rounds(t, nil, judge, n - 1);
    assert handled + ([e] + r.1) == (handled + [e]) + r.1;
  }

  // ---------------------------------------------------------------------
  // One round
  // ---------------------------------------------------------------------

  /** Success forgets the item once and does not re-add it. */
  lemma SuccessForgets<T>(s: Snapshot<T>, e: T)
    ensures var t := Settled(s, e, Succeeded);
      Count(t.forgottenTimes, e) == Count(s.forgottenTimes, e) + 1 &&
      t.queuedTimes == s.queuedTimes && t.nextId == s.nextId && e !in t.index
  {
  }

  /** A failure below the limit re-adds the item once and does not forget
      it. On this queue the deferred `Done` then unlinks the element just
      added, since the index points at it: the list is as before the
      round and the item is no longer indexed. */
  lemma FailureRequeues<T>(s: Snapshot<T>, e: T)
    requires FreshIds(s) && Count(s.queuedTimes, e) < MaxRetries
    ensures var t := Settled(s, e, Failed);
      Count(t.queuedTimes, e) == Count(s.queuedTimes, e) + 1 &&
      t.forgottenTimes == s.forgottenTimes && t.nextId == s.nextId + 1 &&
      t.queue == s.queue && e !in t.index
  {
    var a := Added(s, e);
    WithoutOnce(a.queue, s.nextId, |s.queue|);
    assert a.queue[..|s.queue|] == s.queue;
  }

  /** A failure at the limit forgets the item and does not re-add it. */
  lemma FailureAtLimitDrops<T>(s: Snapshot<T>, e: T)
    requires Count(s.queuedTimes, e) >= MaxRetries
    ensures var t := Settled(s, e, Failed);
      Count(t.forgottenTimes, e) == Count(s.forgottenTimes, e) + 1 &&
      t.queuedTimes == s.queuedTimes && t.nextId == s.nextId && e !in t.index
  {
  }

  /** An item that is not handled is only marked done: nothing is counted
      and nothing re-added. */
  lemma SkipOnlyDone<T>(s: Snapshot<T>, e: T)
    ensures var t := Settled(s, e, Skipped);
      t.forgottenTimes == s.forgottenTimes && t.queuedTimes == s.queuedTimes &&
      t.nextId == s.nextId && e !in t.index
  {
  }

  /** Every round keeps the queue well formed. */
  lemma SettledWellFormed<T>(s: Snapshot<T>, e: T, v: Verdict)
    requires WellFormed(s)
    ensures WellFormed(Settled(s, e, v))
  {
    match v
    case Skipped =>
      RemovedWellFormed(s, e);
    case Succeeded =>
      ForgotWellFormed(s, e);
      RemovedWellFormed(Forgot(s, e), e);
    case Failed =>
      if Count(s.queuedTimes, e) < MaxRetries {
        AddedWellFormed(s, e);
      } else {
        ForgotWellFormed(s, e);
      }
      RemovedWellFormed(AfterError(s, e), e);
  }

  // ---------------------------------------------------------------------
  // Runs of rounds
  // ---------------------------------------------------------------------

  /** `n` copies of `e`. */
  function Repeat<T>(e: T, n: nat): (r: seq<T>)
    ensures |r| == n && forall k | 0 <= k < n :: r[k] == e
  {
    if n == 0 then [] else [e] + Repeat(e, n - 1)
  }

  /** A queue holding `e` once at element 0, not indexed, added `k` times
      and forgotten `f` times: where the failing rounds below lead. */
  function Stuck<T>(e: T, k: nat, f: nat): Snapshot<T>
  {
    Snapshot([Element(0, e)], map[], map[e := k], if f == 0 then map[] else map[e := f], false, k)
  }

  /** From a stuck queue, each failing round below the limit adds one. */
  lemma {:induction false} FailingBelowLimit<T>(e: T, nil: T, judge: T -> Verdict, k: nat, n: nat)
    requires judge(e) == Failed && 1 <= k && k + n <= MaxRetries
    ensures Rounds(Stuck(e, k, 0), nil, judge, n) == (Stuck(e, k + n, 0), Repeat(e, n))
    decreases n
  {
    if n > 0 {
      var s := Stuck(e, k, 0);
      FailureRequeues(s, e);
      assert Settled(s, e, Failed) == Stuck(e, k + 1, 0);
      FailingBelowLimit(e, nil, judge, k + 1, n - 1);
    }
  }

  /** At the limit, each failing round forgets once more and the element
      stays queued, so the handler is called again on every round. */
  lemma {:induction false} FailingAtLimit<T>(e: T, nil: T, judge: T -> Verdict, f: nat, n: nat)
    requires judge(e) == Failed
    ensures Rounds(Stuck(e, MaxRetries, f), nil, judge, n) == (Stuck(e, MaxRetries, f + n), Repeat(e, n))
    decreases n
  {
    if n > 0 {
      var s := Stuck(e, MaxRetries, f);
      assert Settled(s, e, Failed) == Stuck(e, MaxRetries, f + 1);
      FailingAtLimit(e, nil, judge, f + 1, n - 1);
    }
  }

  /** The first `MaxRetries - 1` failing rounds of an item added once to a
      new queue: each re-adds it, and the first unlinks its original
      element's index entry. */
  lemma FailingUpToLimit<T>(e: T, nil: T, judge: T -> Verdict)
    requires judge(e) == Failed
    ensures Rounds(Added(Empty(), e), nil, judge, MaxRetries - 1) == (Stuck(e, MaxRetries, 0), Repeat(e, MaxRetries - 1))
  {
    var s0 := Added(Empty<T>(), e);
    FailureRequeues(s0, e);
    assert Settled(s0, e, Failed) == Stuck(e, 2, 0);
    FailingBelowLimit(e, nil, judge, 2, MaxRetries - 2);
  }

  /** An item added once to a new queue and failing every time: after
      `n >= MaxRetries` rounds the handler ran `n` times on it, it was added
      `MaxRetries` times in all and forgotten `n - MaxRetries + 1` times;
      with `n == 5` that is 5 calls, 5 requeues and one forget. */
  lemma FailingItem<T>(e: T, nil: T, judge: T -> Verdict, n: nat)
    requires judge(e) == Failed && n >= MaxRetries
    ensures var r := Rounds(Added(Empty(), e), nil, judge, n);
      r.1 == Repeat(e, n) &&
      Count(r.0.queuedTimes, e) == MaxRetries &&
      Count(r.0.forgottenTimes, e) == n - MaxRetries + 1 &&
      Values(r.0.queue) == [e]
  {
    FailingUpToLimit(e, nil, judge);
    FailingAtLimit(e, nil, judge, 0, n - MaxRetries + 1);
    RoundsSplit(Added(Empty(), e), nil, judge, MaxRetries - 1, n);
    assert Repeat(e, MaxRetries - 1) + Repeat(e, n - MaxRetries + 1) == Repeat(e, n);
    var t := Stuck(e, MaxRetries, n - MaxRetries + 1);
    assert Rounds(Added(Empty(), e), nil, judge, n) == (t, Repeat(e, n));
    assert Values(t.queue) == [e];
  }

  /** `n` rounds are `m` rounds followed by the remaining `n - m`. */
  lemma {:induction false} RoundsSplit<T>(s: Snapshot<T>, nil: T, judge: T -> Verdict, m: nat, n: nat)
    requires m <= n
    ensures var a := Rounds(s, nil, judge, m);
      Rounds(s, nil, judge, n) == (Rounds(a.0, nil, judge, n - m).0, a.1 + Rounds(a.0, nil, judge, n - m).1)
    decreases m
  {
    if m == 0 {
      var b := Rounds(s, nil, judge, n);
      assert [] + b.1 == b.1;
    } else if !s.done && s.queue != [] {
      var e := s.queue[0].value;
      var t := Settled(s, e, judge(e));
      RoundsSplit(t, nil, judge, m - 1, n - 1);
      var a' := Rounds(t, nil, judge, m - 1);
      var b := Rounds(a'.0, nil, judge, n - m);
      var full := Rounds(t, nil, judge, n - 1);
      assert full == (b.0, a'.1 + b.1);
      assert Rounds(s, nil, judge, m) == (a'.0, [e] + a'.1);
      assert Rounds(s, nil, judge, n) == (full.0, [e] + full.1);
      assert [e] + (a'.1 + b.1) == ([e] + a'.1) + b.1;
    } else {
      assert Rounds(s, nil, judge, m) == (s, []);
      assert Rounds(s, nil, judge, n) == (s, []);
      assert Rounds(s, nil, judge, n - m) == (s, []);
      var none: seq<T> := [];
      assert none + none == none;
    }
  }

  /** An item added once to a new queue and handled successfully is handled
      once, forgotten once, and leaves the queue empty: later rounds do not
      call the handler again. */
  lemma SucceedingItem<T>(e: T, nil: T, judge: T -> Verdict, n: nat)
    requires judge(e) == Succeeded && n >= 1
    ensures var r := Rounds(Added(Empty(), e), nil, judge, n);
      r.1 == [e] && r.0.queue == [] &&
      Count(r.0.queuedTimes, e) == 1 && Count(r.0.forgottenTimes, e) == 1
  {
    var s0 := Added(Empty<T>(), e);
    assert Settled(s0, e, Succeeded).queue == [];
  }
}
