/** The worker pool of a swarm: a registry of workers keyed by name, the
    expected size, a version bumped on every resize, and the balancer that
    recomputes the workload of each worker slot. */
module Pool {
  import opened Wrappers
  import W = Worker
  import Partition
  import Config

  /** The lowest-index workers first: every worker of `marked` has an index
      no greater than any registered worker left out of it. */
  ghost predicate LowestFirst(marked: set<W.Worker>, all: set<W.Worker>)
  {
    marked <= all &&
    forall a, b | a in marked && b in all - marked :: a.index <= b.index
  }

  /** The distinct workers of a list. */
  ghost function Elements(ws: seq<W.Worker>): set<W.Worker>
  {
    set w | w in ws
  }

  /** A list without repetitions has as many elements as positions. */
  lemma {:induction false} DistinctCardinality(ws: seq<W.Worker>)
    requires W.Distinct(ws)
    ensures |Elements(ws)| == |ws|
    decreases |ws|
  {
    if ws != [] {
      var u := ws[..|ws| - 1];
      assert Elements(ws) == Elements(u) + {ws[|ws| - 1]};
      assert ws[|ws| - 1] !in Elements(u);
      DistinctCardinality(u);
    }
  }

  /** In a list sorted by index, a prefix holds the lowest-index workers. */
  lemma SortedPrefixLowest(ws: seq<W.Worker>, k: nat)
    requires W.SortedByIndex(ws) && k <= |ws|
    ensures LowestFirst(Elements(ws[..k]), Elements(ws))
  {
    forall a, b | a in Elements(ws[..k]) && b in Elements(ws) - Elements(ws[..k])
      ensures a.index <= b.index
    {
      var p :| 0 <= p < k && ws[..k][p] == a;
      var q :| 0 <= q < |ws| && ws[q] == b;
    }
  }

  /** The workers of a registry, once each, in the order the keys are
      visited (Go leaves that order unspecified). */
  method ListWorkers(index: map<string, W.Worker>) returns (listed: seq<W.Worker>)
    requires forall n | n in index :: index[n].name == n
    ensures |listed| == |index| && W.Distinct(listed)
    ensures Elements(listed) == index.Values
  {
    listed := [];
    var remaining := index.Keys;
    while remaining != {}
      invariant remaining <= index.Keys
      invariant |listed| + |remaining| == |index|
      invariant forall p | 0 <= p < |listed| ::
                  listed[p].name in index && index[listed[p].name] == listed[p] &&
                  listed[p].name !in remaining
      invariant forall n | n in index && n !in remaining :: index[n] in listed
      invariant W.Distinct(listed)
      decreases |remaining|
    {
      var n :| n in remaining;
      listed := listed + [index[n]];
      remaining := remaining - {n};
    }
  }

  /** Marks the first `total` workers of a list to refresh. */
  method MarkFirst(ws: array<W.Worker>, total: int) returns (ghost marked: set<W.Worker>)
    requires W.Distinct(ws[..]) && W.SortedByIndex(ws[..]) && total <= ws.Length
    modifies set p | 0 <= p < ws.Length :: ws[p]
    ensures |marked| == Max(total, 0)
    ensures LowestFirst(marked, Elements(ws[..]))
    ensures forall w | w in marked :: w.state == W.NeedsRefresh
    ensures forall w | w in Elements(ws[..]) && w !in marked :: w.state == old(w.state)
  {
    var i := 0;
    while i < total
      invariant 0 <= i <= Max(total, 0)
      invariant forall p | 0 <= p < i :: ws[p].state == W.NeedsRefresh
      invariant forall w | w in Elements(ws[..]) && w !in Elements(ws[..][..i]) :: w.state == old(w.state)
    {
      ws[i].MarkToRefresh();
      assert ws[..][..i + 1] == ws[..][..i] + [ws[i]];
      i := i + 1;
    }
    marked := Elements(ws[..][..i]);
    assert W.Distinct(ws[..][..i]);
    DistinctCardinality(ws[..][..i]);
    SortedPrefixLowest(ws[..], i);
  }

  class Pool {
    var index: map<string, W.Worker>
    const namespace: string
    const state: Partition.State
    var version: int
    var expectedSize: int
    var underVariation: bool

    /** Every worker is registered under its own name, and the balancer's
        keys are those of its first workers. */
    ghost predicate Valid()
      reads this, state
    {
      (forall n | n in index :: index[n].name == n) && state.Valid()
    }

    /** `NewWorkerPool(namespace, version, cmp, not)`: an empty registry,
        expected size 0, and a variation pending. */
    constructor (namespace: string, version: int, state: Partition.State)
      requires state.Valid()
      ensures Valid()
      ensures index == map[] && this.namespace == namespace && this.state == state
      ensures this.version == version && expectedSize == 0 && underVariation
    {
      index := map[];
      this.namespace := namespace;
      this.state := state;
      this.version := version;
      expectedSize := 0;
      underVariation := true;
    }

    /** `Size()`: the expected size, not the number of registered workers. */
    function Size(): (n: int)
      reads this
      ensures n == expectedSize
    {
      expectedSize
    }

    /** `worker(name)`: the registered worker, or an error naming it. */
    function Worker(name: string): (r: Result<W.Worker, string>)
      reads this
      ensures r.Ok? <==> name in index
      ensures r.Ok? ==> r.value == index[name]
      ensures r.Err? ==> r.error == "no worker " + name + " found"
    {
      if name in index then Ok(index[name]) else Err("no worker " + name + " found")
    }

    /** `AddWorkerIfNotExists(idx, name, IP)`: a new worker, waiting for its
        assignment, is registered unless the name is taken. The IP is only
        logged: the swarm pool's worker does not keep one, so the stand-in
        worker is built with an empty address. */
    method AddWorkerIfNotExists(idx: int, name: string, ip: W.IP) returns (added: bool)
      requires Valid()
      modifies this
      ensures Valid()
      ensures added <==> name !in old(index)
      ensures !added ==> index == old(index)
      ensures added ==> name in index && index == old(index)[name := index[name]] &&
                        fresh(index[name]) && index[name].index == idx && index[name].name == name &&
                        index[name].state == W.WaitingAssignation
      ensures version == old(version) && expectedSize == old(expectedSize)
      ensures underVariation == old(underVariation)
    {
      if name in index {
        return false;
      }
      var w := new W.Worker(idx, name, []);
      index := index[name := w];
      return true;
    }

    /** `RemoveWorkerByName(name)`: unregisters the name, present or not. */
    method RemoveWorkerByName(name: string)
      requires Valid()
      modifies this
      ensures Valid()
      ensures index == old(index) - {name}
      ensures version == old(version) && expectedSize == old(expectedSize)
      ensures underVariation == old(underVariation)
    {
      index := index - {name};
    }

    /** `geAllWorkers()`: every registered worker once, ascending by index. */
    method GetAllWorkers() returns (ws: array<W.Worker>)
      requires Valid()
      ensures fresh(ws)
      ensures ws.Length == |index|
      ensures Elements(ws[..]) == index.Values
      ensures W.Distinct(ws[..]) && W.SortedByIndex(ws[..])
    {
      var listed := ListWorkers(index);
      ws := new W.Worker[|listed|](i requires 0 <= i < |listed| => listed[i]);
      assert ws[..] == listed;
      W.SortByIndex(ws);
      assert multiset(ws[..]) == multiset(listed);
      forall w | w in ws[..]
        ensures w in index.Values
      {
        assert w in multiset(ws[..]);
      }
      forall w | w in index.Values
        ensures w in ws[..]
      {
        assert w in multiset(listed);
      }
    }

    /** `UpdateSize(newSize)`: nothing happens when the size is the same.
        Otherwise the size is recorded, a variation is pending, the version
        goes up by one and the balancer recomputes the workloads with it (a
        balancing error would only be logged). Unless the pool was empty,
        the `min(new, previous, registered)` workers of lowest index are
        then marked to refresh; no other worker changes, and the registry
        keeps the same workers. */
    method UpdateSize(newSize: int) returns (ghost marked: set<W.Worker>)
      requires Valid()
      modifies this, state, index.Values
      ensures Valid()
      ensures index == old(index) && expectedSize == newSize
      ensures newSize == old(expectedSize) ==>
                version == old(version) && underVariation == old(underVariation) &&
                state.config == old(state.config) && marked == {}
      ensures newSize != old(expectedSize) ==>
                expectedSize == newSize && underVariation && version == old(version) + 1 &&
                (newSize == 0 ==> state.config.workloads == map[] && state.config.version == old(state.config.version)) &&
                (newSize != 0 ==> state.config.workloads.Keys == Partition.KeySet(state.setName, newSize) &&
                                  state.config.version == version) &&
                (forall i | 0 <= i < newSize ::
                   Partition.WorkerKey(state.setName, i) in state.config.workloads &&
                   state.config.workloads[Partition.WorkerKey(state.setName, i)] ==
                   Config.Workload.Workload(Partition.AsWrittenSlice(state.jobs, newSize, i)))
      ensures |marked| == (if newSize == old(expectedSize) || old(expectedSize) == 0 then 0
                           else Max(Min(Min(newSize, old(expectedSize)), |index|), 0))
      ensures LowestFirst(marked, index.Values)
      ensures forall w | w in marked :: w.state == W.NeedsRefresh
      ensures forall w | w in index.Values && w !in marked :: w.state == old(w.state)
    {
      marked := {};
      if expectedSize == newSize {
        return;
      }
      var previousSize := expectedSize;
      Resize(newSize);
      if previousSize == 0 {
        return;
      }
      marked := RefreshLowest(newSize, previousSize);
    }

    /** The bookkeeping of an effective resize: the new size, a pending
        variation, the next version, and a rebalance with that version. */
    method Resize(newSize: int)
      requires Valid()
      modifies this, state
      ensures Valid()
      ensures index == old(index)
      ensures expectedSize == newSize && underVariation && version == old(version) + 1
      ensures newSize == 0 ==> state.config.workloads == map[] && state.config.version == old(state.config.version)
      ensures newSize != 0 ==> state.config.workloads.Keys == Partition.KeySet(state.setName, newSize) &&
                               state.config.version == version
      ensures forall i | 0 <= i < newSize ::
                Partition.WorkerKey(state.setName, i) in state.config.workloads &&
                state.config.workloads[Partition.WorkerKey(state.setName, i)] ==
                Config.Workload.Workload(Partition.AsWrittenSlice(state.jobs, newSize, i))
    {
      expectedSize := newSize;
      underVariation := true;
      version := version + 1;
      var _ := state.BalanceWorkload(newSize, version);
    }

    /** Marks the `min(newSize, previousSize, registered)` workers of lowest
        index to refresh. */
    method RefreshLowest(newSize: int, previousSize: int) returns (ghost marked: set<W.Worker>)
      requires Valid()
      modifies index.Values
      ensures |marked| == Max(Min(Min(newSize, previousSize), |index|), 0)
      ensures LowestFirst(marked, index.Values)
      ensures forall w | w in marked :: w.state == W.NeedsRefresh
      ensures forall w | w in index.Values && w !in marked :: w.state == old(w.state)
    {
      var ws := GetAllWorkers();
      var totalToRefresh := newSize;
      if newSize > previousSize {
        totalToRefresh := previousSize;
      }
      if ws.Length < totalToRefresh {
        totalToRefresh := ws.Length;
      }
      marked := MarkFirst(ws, totalToRefresh);
    }

    /** `conciliate()`: with an expected size and a pending variation, the
        variation is marked as handled; otherwise nothing changes. */
    method Conciliate()
      modifies this
      ensures index == old(index) && version == old(version) && expectedSize == old(expectedSize)
      ensures underVariation == (old(underVariation) && old(expectedSize) == 0)
    {
      if expectedSize == 0 {
        return;
      }
      if !underVariation {
        return;
      }
      underVariation := false;
    }
  }

  // ---------------------------------------------------------------------
  // Scenarios of the pool's tests
  // ---------------------------------------------------------------------

  /** The values of a map with known keys. */
  lemma ValuesOfKeys(m: map<string, W.Worker>, keys: seq<string>)
    requires m.Keys == set k | k in keys
    ensures m.Values == set k | k in keys :: m[k]
  {
    forall v | v in m.Values
      ensures v in set k | k in keys :: m[k]
    {
      var k :| k in m && m[k] == v;
      assert k in keys;
    }
  }

  /** Three workers of increasing index can be sorted only one way. */
  lemma SortedThree(ws: seq<W.Worker>, a: W.Worker, b: W.Worker, c: W.Worker)
    requires |ws| == 3 && Elements(ws) == {a, b, c} && W.SortedByIndex(ws)
    requires a.index < b.index < c.index
    ensures ws[0] == a && ws[2] == c
  {
    assert ws[0] in Elements(ws) && ws[1] in Elements(ws) && ws[2] in Elements(ws);
    assert a in ws && b in ws && c in ws;
  }

  /** Of two workers, the single marked one is the one of lower index. */
  lemma LowestOfTwo(marked: set<W.Worker>, a: W.Worker, b: W.Worker)
    requires |marked| == 1 && LowestFirst(marked, {a, b}) && a.index < b.index
    ensures marked == {a}
  {
    var x :| x in marked;
    assert |marked - {x}| == 0;
  }

  /** A new pool, over a new balancer, resized once to `size`: nobody is
      registered yet, so nobody is marked. */
  method NewPoolOfSize(jobs: seq<string>, setName: string, size: int) returns (p: Pool)
    ensures fresh(p) && fresh(p.state) && p.Valid()
    ensures p.index == map[] && p.expectedSize == size
  {
    var st := new Partition.State(jobs, setName);
    p := new Pool("default", 0, st);
    var _ := p.UpdateSize(size);
  }

  /** Workers registered with indices 1, 3, 2 are listed as 1, 2, 3. */
  method ListsWorkersByIndex(jobs: seq<string>, setName: string) returns (first: string, last: string, count: nat)
    ensures count == 3 && first == "worker-1" && last == "worker-3"
  {
    var p := NewPoolOfSize(jobs, setName, 0);
    var _ := p.AddWorkerIfNotExists(1, "worker-1", [8, 8, 8, 1]);
    var _ := p.AddWorkerIfNotExists(3, "worker-3", [8, 8, 8, 3]);
    var _ := p.AddWorkerIfNotExists(2, "worker-2", [8, 8, 8, 2]);
    var w1, w2, w3 := p.index["worker-1"], p.index["worker-2"], p.index["worker-3"];
    ValuesOfKeys(p.index, ["worker-1", "worker-2", "worker-3"]);
    var ws := p.GetAllWorkers();
    SortedThree(ws[..], w1, w2, w3);
    count := ws.Length;
    first := ws[0].name;
    last := ws[2].name;
  }

  /** Scaling up from one worker to two marks the registered worker but not
      the one that joins afterwards. */
  method ScaleUpMarksOnlyRegistered(jobs: seq<string>, setName: string) returns (s0: W.State, s1: W.State)
    ensures s0 == W.NeedsRefresh && s1 == W.WaitingAssignation
  {
    var p := NewPoolOfSize(jobs, setName, 1);
    var _ := p.AddWorkerIfNotExists(0, "fakeSlave-0", [127, 0, 0, 1]);
    var w0 := p.index["fakeSlave-0"];
    ValuesOfKeys(p.index, ["fakeSlave-0"]);
    var marked := p.UpdateSize(2);
    assert marked == {w0};
    var _ := p.AddWorkerIfNotExists(1, "fakeSlave-1", [127, 0, 0, 2]);
    var r0 := p.Worker("fakeSlave-0");
    var r1 := p.Worker("fakeSlave-1");
    s0 := r0.value.state;
    s1 := r1.value.state;
  }

  /** Scaling down from two workers to one marks the worker of index 0,
      which keeps its mark when the other one leaves. */
  method ScaleDownMarksLowestIndex(jobs: seq<string>, setName: string) returns (s0: W.State)
    ensures s0 == W.NeedsRefresh
  {
    var p := NewPoolOfSize(jobs, setName, 2);
    var _ := p.AddWorkerIfNotExists(0, "fakeSlave-0", [127, 0, 0, 1]);
    var _ := p.AddWorkerIfNotExists(1, "fakeSlave-1", [127, 0, 0, 2]);
    var w0, w1 := p.index["fakeSlave-0"], p.index["fakeSlave-1"];
    ValuesOfKeys(p.index, ["fakeSlave-0", "fakeSlave-1"]);
    var marked := p.UpdateSize(1);
    LowestOfTwo(marked, w0, w1);
    p.RemoveWorkerByName("fakeSlave-1");
    var r0 := p.Worker("fakeSlave-0");
    s0 := r0.value.state;
  }
}
