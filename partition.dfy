/** The workload partitioner of the pool-config controller: an ordered job
    list is sliced into one workload per worker, stored under the key
    `setName-i` of a versioned map. */
module Partition {
  import opened Wrappers
  import opened Text
  import opened Config

  // ---------------------------------------------------------------------
  // Worker keys
  // ---------------------------------------------------------------------

  /** `fmt.Sprintf("%s-%d", setName, i)`. */
  function WorkerKey(setName: string, i: int): string
  {
    setName + "-" + Itoa(i)
  }

  /** Different indices give different keys under the same set name. */
  lemma WorkerKeyInjective(setName: string, i: int, j: int)
    requires WorkerKey(setName, i) == WorkerKey(setName, j)
    ensures i == j
  {
    assert WorkerKey(setName, i)[|setName| + 1..] == Itoa(i);
    assert WorkerKey(setName, j)[|setName| + 1..] == Itoa(j);
    ItoaInjective(i, j);
  }

  /** The keys of the workers with an index in `[lo, hi)`. */
  ghost function KeyRange(setName: string, lo: int, hi: int): set<string>
    decreases hi - lo
  {
    if hi <= lo then {} else KeyRange(setName, lo, hi - 1) + {WorkerKey(setName, hi - 1)}
  }

  /** The keys of workers `0 .. k-1`. */
  ghost function KeySet(setName: string, k: int): set<string>
  {
    KeyRange(setName, 0, k)
  }

  lemma {:induction false} KeyRangeMember(setName: string, lo: int, hi: int, i: int)
    ensures WorkerKey(setName, i) in KeyRange(setName, lo, hi) <==> lo <= i < hi
    decreases hi - lo
  {
    if lo < hi {
      KeyRangeMember(setName, lo, hi - 1, i);
      if WorkerKey(setName, i) == WorkerKey(setName, hi - 1) {
        WorkerKeyInjective(setName, i, hi - 1);
      }
    }
  }

  /** Every key of a range is the key of an index in the range. */
  lemma {:induction false} KeyRangeWitness(setName: string, lo: int, hi: int, k: string)
    requires k in KeyRange(setName, lo, hi)
    ensures exists i :: lo <= i < hi && k == WorkerKey(setName, i)
    decreases hi - lo
  {
    if k != WorkerKey(setName, hi - 1) {
      KeyRangeWitness(setName, lo, hi - 1, k);
    }
  }

  /** A range grows by one key at its upper end. */
  lemma KeyRangeExtend(setName: string, lo: int, hi: int)
    requires lo <= hi
    ensures KeyRange(setName, lo, hi + 1) == KeyRange(setName, lo, hi) + {WorkerKey(setName, hi)}
  {
  }

  /** The key set of `k` workers has exactly `k` keys. */
  lemma {:induction false} KeySetCardinality(setName: string, k: nat)
    ensures |KeySet(setName, k)| == k
    decreases k
  {
    if k > 0 {
      KeySetCardinality(setName, k - 1);
      KeyRangeMember(setName, 0, k - 1, k - 1);
    }
  }

  /** Removing the keys `[t, max(t, b))` from the first `b` keys leaves the
      first `min(max(t, 0), b)` keys. */
  lemma KeyRangeTrim(setName: string, t: int, b: nat)
    ensures KeySet(setName, b) - KeyRange(setName, t, Max(t, b))
         == KeySet(setName, Min(Max(t, 0), b))
  {
    var lhs := KeySet(setName, b) - KeyRange(setName, t, Max(t, b));
    var rhs := KeySet(setName, Min(Max(t, 0), b));
    forall k | k in lhs
      ensures k in rhs
    {
      KeyRangeWitness(setName, 0, b, k);
      var j :| 0 <= j < b && WorkerKey(setName, j) == k;
      KeyRangeMember(setName, t, Max(t, b), j);
      KeyRangeMember(setName, 0, Min(Max(t, 0), b), j);
    }
    forall k | k in rhs
      ensures k in lhs
    {
      KeyRangeWitness(setName, 0, Min(Max(t, 0), b), k);
      var j :| 0 <= j < Min(Max(t, 0), b) && WorkerKey(setName, j) == k;
      KeyRangeMember(setName, t, Max(t, b), j);
      KeyRangeMember(setName, 0, b, j);
    }
  }

  // ---------------------------------------------------------------------
  // Slice arithmetic
  // ---------------------------------------------------------------------

  /** The number of jobs worker `i` of `w` receives out of `n`. */
  function PartSize(n: nat, w: nat, i: nat): nat
    requires w > 0
  {
    n / w + (if i < n % w then 1 else 0)
  }

  lemma MulMonotone(a: nat, b: nat, c: nat)
    requires a <= b
    ensures a * c <= b * c
  {
  }

  lemma MulStrict(a: nat, b: nat, c: nat)
    requires a < b && c > 0
    ensures a * c < b * c
  {
  }

  lemma MulSucc(a: int, c: int)
    ensures (a + 1) * c == a * c + c
  {
  }

  lemma MulAddOne(a: int, c: int)
    ensures a * (c + 1) == a * c + a
  {
  }

  /** Where `state.go` starts worker `i`'s slice: `i * size`, with the
      worker's own size. */
  function AsWrittenStart(n: nat, w: nat, i: nat): nat
    requires i < w
  {
    i * PartSize(n, w, i)
  }

  /** Where `state.go` ends worker `i`'s slice: `(i + 1) * size`, clamped
      to the list length. */
  function AsWrittenEnd(n: nat, w: nat, i: nat): nat
    requires i < w
  {
    var e := (i + 1) * PartSize(n, w, i);
    if e > n then n else e
  }

  /** With `i < w`, the unclamped end `(i + 1) * size` never passes the
      end of the list. */
  lemma EndWithinJobs(n: nat, w: nat, i: nat)
    requires i < w
    ensures (i + 1) * PartSize(n, w, i) <= n
  {
    var q, r := n / w, n % w;
    assert n == w * q + r;
    MulMonotone(i + 1, w, q);
    if i < r {
      MulAddOne(i + 1, q);
    }
  }

  /** The clamp never applies: a slice runs from `i * size` to
      `(i + 1) * size`, inside the list. */
  lemma AsWrittenBoundsOrdered(n: nat, w: nat, i: nat)
    requires i < w
    ensures AsWrittenEnd(n, w, i) == AsWrittenStart(n, w, i) + PartSize(n, w, i)
    ensures AsWrittenStart(n, w, i) <= AsWrittenEnd(n, w, i) <= n
  {
    EndWithinJobs(n, w, i);
    MulSucc(i, PartSize(n, w, i));
  }

  /** The bounds as `BalanceWorkload` computes them, step by step, are
      `AsWrittenStart` and `AsWrittenEnd`, and lie within the list. */
  lemma AsWrittenBounds(n: nat, w: int, i: int, size: int, start: int, end: int)
    requires 0 <= i < w
    requires size == n / w + (if i < n % w then 1 else 0)
    requires start == i * size
    requires end == if (i + 1) * size > n then n else (i + 1) * size
    ensures start == AsWrittenStart(n, w, i) && end == AsWrittenEnd(n, w, i)
    ensures 0 <= start <= end <= n
  {
    assert size == PartSize(n, w, i);
    AsWrittenBoundsOrdered(n, w, i);
  }

  /** The jobs `BalanceWorkload` assigns to worker `i` of `w`: exactly
      `n / w` of them, plus one when `i < n % w`. */
  function AsWrittenSlice(jobs: seq<Job>, w: nat, i: nat): (s: seq<Job>)
    requires i < w
    ensures |s| == |jobs| / w + (if i < |jobs| % w then 1 else 0)
  {
    AsWrittenBoundsOrdered(|jobs|, w, i);
    jobs[AsWrittenStart(|jobs|, w, i)..AsWrittenEnd(|jobs|, w, i)]
  }

  /** Two workers' shares differ by at most one job, and earlier workers
      never get fewer jobs than later ones. */
  lemma PartSizesClose(n: nat, w: nat, i: nat, j: nat)
    requires i < w && j < w
    ensures -1 <= PartSize(n, w, i) - PartSize(n, w, j) <= 1
    ensures i <= j ==> PartSize(n, w, j) <= PartSize(n, w, i)
  {
  }

  /** The total of the first `k` shares. */
  function SumOfSizes(n: nat, w: nat, k: nat): nat
    requires w > 0
  {
    if k == 0 then 0 else SumOfSizes(n, w, k - 1) + PartSize(n, w, k - 1)
  }

  lemma {:induction false} SumOfSizesPrefix(n: nat, w: nat, k: nat)
    requires 0 < w && k <= w
    ensures SumOfSizes(n, w, k) == k * (n / w) + Min(k, n % w)
    decreases k
  {
    if k > 0 {
      SumOfSizesPrefix(n, w, k - 1);
      MulSucc(k - 1, n / w);
    }
  }

  /** The shares of all workers add up to the number of jobs. */
  lemma SumOfSizesTotal(n: nat, w: nat)
    requires w > 0
    ensures SumOfSizes(n, w, w) == n
  {
    SumOfSizesPrefix(n, w, w);
    assert n == w * (n / w) + n % w;
  }

  /** The first `k` slices laid end to end. */
  function AsWrittenConcat(jobs: seq<Job>, w: nat, k: nat): seq<Job>
    requires k <= w
  {
    if k == 0 then [] else AsWrittenConcat(jobs, w, k - 1) + AsWrittenSlice(jobs, w, k - 1)
  }

  /** While all shares so far have the same size (every share when `w`
      divides `n`, or the first `n % w` shares), the written slices are the
      intended ones. */
  lemma {:induction false} AsWrittenConcatAgrees(jobs: seq<Job>, w: nat, k: nat)
    requires 0 < w && k <= w
    requires |jobs| % w == 0 || k <= |jobs| % w
    ensures AsWrittenConcat(jobs, w, k) == BalancedConcat(jobs, w, k)
    decreases k
  {
    if k > 0 {
      AsWrittenConcatAgrees(jobs, w, k - 1);
      BalancedAgreesOnPrefix(jobs, w, k - 1);
    }
  }

  /** Under the same condition the written slices are disjoint and cover a
      prefix of the list in order. */
  lemma AsWrittenPrefixCover(jobs: seq<Job>, w: nat, k: nat)
    requires 0 < w && k <= w
    requires |jobs| % w == 0 || k <= |jobs| % w
    ensures SumOfSizes(|jobs|, w, k) <= |jobs|
    ensures AsWrittenConcat(jobs, w, k) == jobs[..SumOfSizes(|jobs|, w, k)]
  {
    SumOfSizesMonotone(|jobs|, w, k, w);
    SumOfSizesTotal(|jobs|, w);
    AsWrittenConcatAgrees(jobs, w, k);
    BalancedCover(jobs, w, k);
  }

  /** When `w` divides `n`, the slices partition the list in order. */
  lemma AsWrittenExactCover(jobs: seq<Job>, w: nat)
    requires w > 0 && |jobs| % w == 0
    ensures AsWrittenConcat(jobs, w, w) == jobs
  {
    AsWrittenPrefixCover(jobs, w, w);
    SumOfSizesTotal(|jobs|, w);
    assert jobs[..|jobs|] == jobs;
  }

  /** As written, when `w` does not divide `n` and there are more jobs
      than workers, worker `i`'s slice ends before the last job. */
  lemma AsWrittenEndBeforeLast(n: nat, w: nat, i: nat)
    requires 0 < w < n && n % w > 0 && i < w
    ensures AsWrittenEnd(n, w, i) < n
  {
    var q, r := n / w, n % w;
    assert n == w * q + r;
    assert q >= 1;
    EndWithinJobs(n, w, i);
    if i < r {
      MulMonotone(i + 1, r, q + 1);
      MulAddOne(r, q);
      MulStrict(r, w, q);
    } else {
      MulMonotone(i + 1, w, q);
    }
  }

  /** As written, when `w` does not divide `n` and there are more jobs
      than workers, every slice ends before the last job: the job at index
      `n - 1` is assigned to nobody. */
  lemma AsWrittenMissesLastJob(n: nat, w: nat)
    requires 0 < w < n && n % w > 0
    ensures forall i | 0 <= i < w :: AsWrittenEnd(n, w, i) < n
  {
    forall i | 0 <= i < w
      ensures AsWrittenEnd(n, w, i) < n
    {
      AsWrittenEndBeforeLast(n, w, i);
    }
  }

  /** Nine jobs over two workers, as written: the shares have 5 and 4 jobs,
      the second one starts at the first one's last job, and a ninth job
      that differs from the others is assigned to nobody. */
  lemma AsWrittenNineOverTwo(jobs: seq<Job>)
    requires |jobs| == 9 && jobs[8] !in jobs[..8]
    ensures AsWrittenSlice(jobs, 2, 0) == jobs[0..5]
    ensures AsWrittenSlice(jobs, 2, 1) == jobs[4..8]
    ensures jobs[8] !in AsWrittenConcat(jobs, 2, 2)
  {
    var c := jobs[0..5] + jobs[4..8];
    assert PartSize(9, 2, 0) == 5 && AsWrittenEnd(9, 2, 0) == 5;
    assert PartSize(9, 2, 1) == 4 && AsWrittenEnd(9, 2, 1) == 8;
    assert AsWrittenConcat(jobs, 2, 1) == [] + jobs[0..5];
    assert AsWrittenConcat(jobs, 2, 2) == c;
    forall k | 0 <= k < |c|
      ensures c[k] in jobs[..8]
    {
      if k < 5 {
        assert c[k] == jobs[..8][k];
      } else {
        assert c[k] == jobs[..8][k - 1];
      }
    }
  }

  /** The evidently intended start of worker `i`'s share: the sizes of all
      earlier shares added up. */
  function BalancedStart(n: nat, w: nat, i: nat): (start: nat)
    requires 0 <= i <= w && w > 0
    ensures start == SumOfSizes(n, w, i)
    ensures i < w ==> start + PartSize(n, w, i) <= n
  {
    SumOfSizesPrefix(n, w, i);
    ShareFits(n, w, i);
    i * (n / w) + Min(i, n % w)
  }

  lemma ShareFits(n: nat, w: nat, i: nat)
    requires 0 <= i <= w && w > 0
    ensures i < w ==> SumOfSizes(n, w, i) + PartSize(n, w, i) <= n
  {
    if i < w {
      SumOfSizesTotal(n, w);
      SumOfSizesMonotone(n, w, i + 1, w);
    }
  }

  lemma {:induction false} SumOfSizesMonotone(n: nat, w: nat, j: nat, k: nat)
    requires 0 < w && j <= k
    ensures SumOfSizes(n, w, j) <= SumOfSizes(n, w, k)
    decreases k - j
  {
    if j < k {
      SumOfSizesMonotone(n, w, j, k - 1);
    }
  }

  /** Worker `i`'s share, sliced from the intended start. */
  function BalancedSlice(jobs: seq<Job>, w: nat, i: nat): (s: seq<Job>)
    requires 0 <= i < w
    ensures |s| == PartSize(|jobs|, w, i)
  {
    var start := BalancedStart(|jobs|, w, i);
    jobs[start..start + PartSize(|jobs|, w, i)]
  }

  function BalancedConcat(jobs: seq<Job>, w: nat, k: nat): seq<Job>
    requires k <= w
  {
    if k == 0 then [] else BalancedConcat(jobs, w, k - 1) + BalancedSlice(jobs, w, k - 1)
  }

  /** With the intended start, the shares always partition the list in
      order, whatever `n % w` is. */
  lemma {:induction false} BalancedCover(jobs: seq<Job>, w: nat, k: nat)
    requires 0 < w && k <= w
    ensures BalancedConcat(jobs, w, k) == jobs[..BalancedStart(|jobs|, w, k)]
    decreases k
  {
    if k > 0 {
      BalancedCover(jobs, w, k - 1);
      var a := BalancedStart(|jobs|, w, k - 1);
      var b := BalancedStart(|jobs|, w, k);
      assert b == a + PartSize(|jobs|, w, k - 1);
      assert jobs[..a] + jobs[a..b] == jobs[..b];
    }
  }

  /** All the intended shares together are exactly the job list. */
  lemma BalancedCoverAll(jobs: seq<Job>, w: nat)
    requires w > 0
    ensures BalancedConcat(jobs, w, w) == jobs
  {
    BalancedCover(jobs, w, w);
    SumOfSizesTotal(|jobs|, w);
    assert jobs[..|jobs|] == jobs;
  }

  /** The intended shares agree with the written ones exactly where the
      written ones are right: when `w` divides `n`, or for the first
      `n % w` workers. */
  lemma BalancedAgreesOnPrefix(jobs: seq<Job>, w: nat, i: nat)
    requires i < w && (|jobs| % w == 0 || i < |jobs| % w)
    ensures BalancedSlice(jobs, w, i) == AsWrittenSlice(jobs, w, i)
  {
    AsWrittenBoundsOrdered(|jobs|, w, i);
    if |jobs| % w != 0 {
      MulAddOne(i, |jobs| / w);
    }
    assert BalancedStart(|jobs|, w, i) == AsWrittenStart(|jobs|, w, i);
  }

  /** One deletion of `cleanAssignations` removes the next key of the
      range being dropped. */
  lemma DeleteStep(m: map<string, Config.Workload>, setName: string, orgSize: nat, t: int, i: int)
    requires t <= i
    requires m.Keys == KeySet(setName, orgSize) - KeyRange(setName, t, i)
    ensures (m - {WorkerKey(setName, i)}).Keys == KeySet(setName, orgSize) - KeyRange(setName, t, i + 1)
  {
    KeyRangeExtend(setName, t, i);
  }

  /** Workers `0 .. i-1` hold the slices `BalanceWorkload` gives them. */
  ghost predicate AssignedUpTo(m: map<string, Config.Workload>, setName: string, jobs: seq<Job>, w: nat, i: nat)
    requires i <= w
  {
    forall j | 0 <= j < i ::
      WorkerKey(setName, j) in m && m[WorkerKey(setName, j)] == Config.Workload.Workload(AsWrittenSlice(jobs, w, j))
  }

  /** Storing worker `i`'s slice adds its key, if it was not there yet, and
      keeps every earlier worker's slice. */
  lemma AssignStep(m: map<string, Config.Workload>, setName: string, jobs: seq<Job>, w: nat, i: nat, m0: nat)
    requires i < w
    requires m.Keys == KeySet(setName, Max(i, m0))
    requires AssignedUpTo(m, setName, jobs, w, i)
    ensures m[WorkerKey(setName, i) := Config.Workload.Workload(AsWrittenSlice(jobs, w, i))].Keys
         == KeySet(setName, Max(i + 1, m0))
    ensures AssignedUpTo(m[WorkerKey(setName, i) := Config.Workload.Workload(AsWrittenSlice(jobs, w, i))],
                         setName, jobs, w, i + 1)
  {
    KeyRangeExtend(setName, 0, i);
    KeyRangeMember(setName, 0, m0, i);
    forall j | 0 <= j < i
      ensures WorkerKey(setName, j) != WorkerKey(setName, i)
    {
      KeyRangeMember(setName, j, j + 1, i);
    }
  }

  /** The deletion loop of `cleanAssignations`, over the workload map:
      removes the keys of workers `totalWorkers .. |m|-1`. */
  method DeleteWorkers(m: map<string, Config.Workload>, setName: string, totalWorkers: int)
    returns (workloads: map<string, Config.Workload>)
    requires m.Keys == KeySet(setName, |m|)
    ensures workloads.Keys == KeySet(setName, Min(Max(totalWorkers, 0), |m|))
    ensures |workloads| == Min(Max(totalWorkers, 0), |m|)
    ensures forall k | k in workloads :: k in m && workloads[k] == m[k]
  {
    workloads := m;
    var orgSize := |m|;
    var i := totalWorkers;
    while i < orgSize
      invariant totalWorkers <= i <= Max(totalWorkers, orgSize)
      invariant workloads.Keys == KeySet(setName, orgSize) - KeyRange(setName, totalWorkers, i)
      invariant forall k | k in workloads :: k in m && workloads[k] == m[k]
    {
      DeleteStep(workloads, setName, orgSize, totalWorkers, i);
      workloads := workloads - {WorkerKey(setName, i)};
      i := i + 1;
    }
    assert i == Max(totalWorkers, orgSize);
    var kept := Min(Max(totalWorkers, 0), orgSize);
    KeyRangeTrim(setName, totalWorkers, orgSize);
    assert workloads.Keys == KeySet(setName, kept);
    KeySetCardinality(setName, kept);
    assert |workloads| == |workloads.Keys|;
  }

  /** Storing an empty workload for a missing key and then overwriting it
      is the same as the overwrite alone. */
  lemma OverwriteDefault<K, V>(m: map<K, V>, k: K, d: V, v: V)
    ensures (if k !in m then m[k := d] else m)[k := v] == m[k := v]
  {
  }

  /** The bounds `BalanceWorkload` computes for worker `i`: its size is
      `n / w`, plus one below `n % w`; it starts at `i * size` and ends at
      `(i + 1) * size`, clamped to `n`. */
  method ShareBounds(n: nat, totalWorkers: nat, i: nat) returns (start: nat, end: nat)
    requires i < totalWorkers
    ensures start == AsWrittenStart(n, totalWorkers, i) && end == AsWrittenEnd(n, totalWorkers, i)
    ensures start <= end <= n
  {
    var partSize := n / totalWorkers;
    var modulePartSize := n % totalWorkers;
    var size := partSize;
    if i < modulePartSize {
      size := size + 1;
    }
    var s := i * size;
    var e := (i + 1) * size;
    if e > n {
      e := n;
    }
    AsWrittenBounds(n, totalWorkers, i, size, s, e);
    start, end := s, e;
  }

  /** The assignment loop of `BalanceWorkload`, over the workload map: every
      worker `0 .. totalWorkers-1` gets its slice, starting at `i * size`
      with its own size; entries of higher workers are left as they were. */
  method AssignWorkers(m: map<string, Config.Workload>, setName: string, jobs: seq<Job>, totalWorkers: nat)
    returns (workloads: map<string, Config.Workload>)
    requires totalWorkers > 0
    requires m.Keys == KeySet(setName, |m|)
    ensures workloads.Keys == KeySet(setName, Max(totalWorkers, |m|))
    ensures |workloads| == Max(totalWorkers, |m|)
    ensures forall i | 0 <= i < totalWorkers ::
              WorkerKey(setName, i) in workloads &&
              workloads[WorkerKey(setName, i)] == Config.Workload.Workload(AsWrittenSlice(jobs, totalWorkers, i))
  {
    workloads := m;
    var m0 := |m|;
    var i := 0;
    while i < totalWorkers
      invariant 0 <= i <= totalWorkers
      invariant workloads.Keys == KeySet(setName, Max(i, m0))
      invariant AssignedUpTo(workloads, setName, jobs, totalWorkers, i)
    {
      var workerName := WorkerKey(setName, i);
      ghost var before := workloads;
      workloads := if workerName !in workloads then workloads[workerName := Config.Workload.Workload([])] else workloads;
      var start, end := ShareBounds(|jobs|, totalWorkers, i);
      workloads := workloads[workerName := Config.Workload.Workload(jobs[start..end])];
      OverwriteDefault(before, workerName, Config.Workload.Workload([]), Config.Workload.Workload(jobs[start..end]));
      AssignStep(before, setName, jobs, totalWorkers, i, m0);
      i := i + 1;
    }
    assert i == totalWorkers;
    KeySetCardinality(setName, Max(i, m0));
    assert |workloads| == |workloads.Keys|;
  }

  // ---------------------------------------------------------------------
  // The state
  // ---------------------------------------------------------------------

  /** The workload assignment of one worker set. */
  class State {
    const setName: string
    const jobs: seq<Job>
    var config: Config.Workloads

    /** The stored keys are always those of workers `0 .. size-1`. */
    ghost predicate Valid()
      reads this
    {
      config.workloads.Keys == KeySet(setName, |config.workloads|)
    }

    /** `NewState(keySet, setName)`: no assignment yet, version 0. */
    constructor (keySet: seq<Job>, setName: string)
      ensures this.setName == setName && jobs == keySet
      ensures config == Config.Workloads.Workloads(map[], 0)
      ensures Valid()
    {
      this.setName := setName;
      jobs := keySet;
      config := Config.Workloads.Workloads(map[], 0);
    }

    /** `cleanAssignations(totalWorkers)`: deletes the keys of workers
        `totalWorkers .. size-1`; the kept workloads and the version stay. */
    method CleanAssignations(totalWorkers: int)
      requires Valid()
      modifies this
      ensures Valid()
      ensures config.version == old(config.version)
      ensures config.workloads.Keys
           == KeySet(setName, Min(Max(totalWorkers, 0), old(|config.workloads|)))
      ensures forall k | k in config.workloads ::
                k in old(config.workloads) && config.workloads[k] == old(config.workloads)[k]
    {
      var workloads := DeleteWorkers(config.workloads, setName, totalWorkers);
      config := config.(workloads := workloads);
    }

    /** `BalanceWorkload(totalWorkers, version)`: with no workers the map is
        emptied and the version kept; otherwise worker `i` gets the slice
        that starts at `i * size` with its own size, the version is set and
        the workers beyond `totalWorkers` are dropped. It never fails. */
    method BalanceWorkload(totalWorkers: int, version: int) returns (err: Outcome<string>)
      requires Valid()
      modifies this
      ensures Valid()
      ensures err == Pass
      ensures totalWorkers == 0 ==> config == Config.Workloads.Workloads(map[], old(config.version))
      ensures totalWorkers < 0 ==> config == Config.Workloads.Workloads(map[], version)
      ensures totalWorkers > 0 ==>
                config.version == version &&
                config.workloads.Keys == KeySet(setName, totalWorkers) &&
                forall i | 0 <= i < totalWorkers ::
                  WorkerKey(setName, i) in config.workloads &&
                  config.workloads[WorkerKey(setName, i)] == Config.Workload.Workload(AsWrittenSlice(jobs, totalWorkers, i))
    {
      if totalWorkers == 0 {
        CleanAssignations(0);
        return Pass;
      }

      var workloads := config.workloads;
      if totalWorkers > 0 {
        workloads := AssignWorkers(workloads, setName, jobs, totalWorkers);
      }
      config := config.(workloads := workloads, version := version);

      if totalWorkers < |config.workloads| {
        CleanAssignations(totalWorkers);
        if totalWorkers > 0 {
          forall j | 0 <= j < totalWorkers
            ensures WorkerKey(setName, j) in config.workloads
          {
            KeyRangeMember(setName, 0, totalWorkers, j);
          }
        }
      }
      return Pass;
    }

    /** `Workloads()`: the last computed assignment. */
    function Workloads(): Config.Workloads
      reads this
    {
      config
    }

    /** `Workload(workerIdx)`: the workload under `setName-workerIdx`, or an
        error when there is no such entry. */
    function Workload(workerIdx: int): (r: Result<Config.Workload, string>)
      reads this
      ensures r.Ok? <==> WorkerKey(setName, workerIdx) in config.workloads
      ensures r.Ok? ==> r.value == config.workloads[WorkerKey(setName, workerIdx)]
      ensures r.Err? ==> r.error == "Workloads not found on index " + Itoa(workerIdx)
    {
      var key := WorkerKey(setName, workerIdx);
      if key in config.workloads then Ok(config.workloads[key])
      else Err("Workloads not found on index " + Itoa(workerIdx))
    }

    /** `size()`: the number of assigned workers, which names the key set. */
    function Size(): (n: nat)
      reads this
      ensures Valid() ==> config.workloads.Keys == KeySet(setName, n)
    {
      |config.workloads|
    }

    /** In a valid state, `Workload(i)` succeeds exactly for `0 <= i < size`. */
    lemma WorkloadFound(workerIdx: int)
      requires Valid()
      ensures Workload(workerIdx).Ok? <==> 0 <= workerIdx < Size()
    {
      KeyRangeMember(setName, 0, Size(), workerIdx);
    }
  }

  /** Balancing three workers and then two, on any job list: index 2 is no
      longer found, indices 0 and 1 are, and the second balance's version
      is the one kept. */
  method DownscaleThreeToTwo(jobs: seq<Job>) returns (r0: Result<Config.Workload, string>,
                                                   r1: Result<Config.Workload, string>,
                                                   r2: Result<Config.Workload, string>,
                                                   size: nat, version: int)
    ensures r0.Ok? && r0.value.jobs == AsWrittenSlice(jobs, 2, 0)
    ensures r1.Ok? && r1.value.jobs == AsWrittenSlice(jobs, 2, 1)
    ensures r2.Err?
    ensures size == 2 && version == 2
  {
    var s := new State(jobs, "foo");
    var _ := s.BalanceWorkload(3, 1);
    var _ := s.BalanceWorkload(2, 2);
    s.WorkloadFound(0);
    s.WorkloadFound(1);
    s.WorkloadFound(2);
    KeySetCardinality("foo", 2);
    r0 := s.Workload(0);
    r1 := s.Workload(1);
    r2 := s.Workload(2);
    size := s.Size();
    version := s.Workloads().version;
  }
}
