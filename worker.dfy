/** A pool member and its refresh life cycle: a worker waits for its first
    assignment, is marked to refresh when the pool is resized, and syncs
    once refreshed. The `workerList` ordering sorts workers by index. */
module Worker {

  /** The three states a worker goes through. */
  datatype State = NeedsRefresh | WaitingAssignation | Syncing

  /** `net.IP`: the raw address bytes. */
  type IP = seq<bv8>

  class Worker {
    const name: string
    const ip: IP
    const index: int
    const version: int
    var state: State

    /** `newWorker(idx, name, IP, d)`: a fresh worker waits for its first
        assignment. The version is never set and stays at Go's zero. */
    constructor (idx: int, name: string, ip: IP)
      ensures this.name == name && this.ip == ip && index == idx && version == 0
      ensures state == WaitingAssignation
    {
      this.name := name;
      this.ip := ip;
      index := idx;
      version := 0;
      state := WaitingAssignation;
    }

    /** `NeedsRefresh()`: whether the worker waits to be refreshed. */
    predicate NeedsRefresh()
      reads this
      ensures NeedsRefresh() <==> state == State.NeedsRefresh
    {
      state.NeedsRefresh?
    }

    /** `MarkToRefresh()`: from any state to NeedsRefresh. */
    method MarkToRefresh()
      modifies this
      ensures state == State.NeedsRefresh
    {
      state := State.NeedsRefresh;
    }

    /** `MarkRefreshed()`: from any state to Syncing, with no check of the
        state it leaves. */
    method MarkRefreshed()
      modifies this
      ensures state == Syncing
    {
      state := Syncing;
    }
  }

  /** The full cycle: a new worker is not pending a refresh, is after being
      marked, and is no longer once refreshed; its identity never changes. */
  method Lifecycle(idx: int, name: string, ip: IP) returns (w: Worker, before: bool, marked: bool, after: bool)
    ensures !before && marked && !after
    ensures w.name == name && w.ip == ip && w.index == idx && w.state == Syncing
  {
    w := new Worker(idx, name, ip);
    before := w.NeedsRefresh();
    w.MarkToRefresh();
    marked := w.NeedsRefresh();
    w.MarkRefreshed();
    after := w.NeedsRefresh();
  }

  // ---------------------------------------------------------------------
  // workerList: ordering by index
  // ---------------------------------------------------------------------

  /** `workerList.Less(i, j)`. */
  predicate Less(ws: seq<Worker>, i: nat, j: nat)
    requires i < |ws| && j < |ws|
  {
    ws[i].index < ws[j].index
  }

  /** Ascending by index, as `sort.Sort(workerList)` leaves the list. */
  predicate SortedByIndex(ws: seq<Worker>)
  {
    forall p, q | 0 <= p < q < |ws| :: ws[p].index <= ws[q].index
  }

  /** No worker appears twice. */
  predicate Distinct(ws: seq<Worker>)
  {
    forall p, q | 0 <= p < q < |ws| :: ws[p] != ws[q]
  }

  /** `ws` with positions `i` and `j` exchanged. */
  function Swapped(ws: seq<Worker>, i: nat, j: nat): (r: seq<Worker>)
    requires i < |ws| && j < |ws|
    ensures |r| == |ws| && r[i] == ws[j] && r[j] == ws[i]
    ensures forall k | 0 <= k < |ws| && k != i && k != j :: r[k] == ws[k]
  {
    ws[i := ws[j]][j := ws[i]]
  }

  /** Exchanging two positions permutes the list. */
  lemma SwappedPermutes(ws: seq<Worker>, i: nat, j: nat)
    requires i < |ws| && j < |ws|
    ensures multiset(Swapped(ws, i, j)) == multiset(ws)
  {
  }

  /** In a list without repetitions every worker occurs at most once. */
  lemma {:induction false} DistinctCountsOne(t: seq<Worker>)
    requires Distinct(t)
    ensures forall x :: multiset(t)[x] <= 1
    decreases |t|
  {
    if t != [] {
      var u := t[..|t| - 1];
      assert t == u + [t[|t| - 1]];
      assert t[|t| - 1] !in u;
      DistinctCountsOne(u);
    }
  }

  /** A worker at two positions occurs at least twice. */
  lemma RepeatCountsTwo(s: seq<Worker>, p: nat, q: nat)
    requires p < q < |s| && s[p] == s[q]
    ensures multiset(s)[s[p]] >= 2
  {
    assert s == s[..q] + [s[q]] + s[q + 1..];
    assert s[..q][p] == s[p];
  }

  /** A permutation of a list without repetitions has none either. */
  lemma MultisetKeepsDistinct(s: seq<Worker>, t: seq<Worker>)
    requires multiset(s) == multiset(t) && Distinct(t)
    ensures Distinct(s)
  {
    DistinctCountsOne(t);
    forall p, q | 0 <= p < q < |s|
      ensures s[p] != s[q]
    {
      if s[p] == s[q] {
        RepeatCountsTwo(s, p, q);
      }
    }
  }

  /** `workerList.Swap(i, j)`: exchanges exactly two positions. */
  method Swap(a: array<Worker>, i: nat, j: nat)
    requires i < a.Length && j < a.Length
    modifies a
    ensures a[..] == Swapped(old(a[..]), i, j)
  {
    a[i], a[j] := a[j], a[i];
  }

  /** While worker `i` moves left by swaps: everything in `s[..i+1]` but
      the moving worker at `j` is in order, the workers left of it are no
      later than those right of it, and it precedes its right neighbour. */
  ghost predicate Inserting(s: seq<Worker>, j: nat, i: nat)
    requires j <= i < |s|
  {
    (forall p, q | 0 <= p < q <= i && p != j && q != j :: s[p].index <= s[q].index) &&
    (forall p, q | 0 <= p < j < q <= i :: s[p].index <= s[q].index) &&
    (j < i ==> s[j].index < s[j + 1].index)
  }

  lemma InsertStart(s: seq<Worker>, i: nat)
    requires i < |s| && SortedByIndex(s[..i])
    ensures Inserting(s, i, i)
  {
    forall p, q | 0 <= p < q < i
      ensures s[p].index <= s[q].index
    {
      assert s[..i][p] == s[p] && s[..i][q] == s[q];
    }
  }

  lemma InsertSwap(s: seq<Worker>, j: nat, i: nat)
    requires 0 < j <= i < |s| && Inserting(s, j, i) && s[j].index < s[j - 1].index
    ensures Inserting(Swapped(s, j - 1, j), j - 1, i)
  {
  }

  lemma InsertDone(s: seq<Worker>, j: nat, i: nat)
    requires j <= i < |s| && Inserting(s, j, i)
    requires j == 0 || s[j - 1].index <= s[j].index
    ensures SortedByIndex(s[..i + 1])
  {
    forall p, q | 0 <= p < q <= i
      ensures s[p].index <= s[q].index
    {
      if q == j && p < j - 1 {
        assert s[p].index <= s[j - 1].index;
      } else if p == j && j + 1 < q {
        assert s[j + 1].index <= s[q].index;
      }
    }
  }

  /** One step of insertion: the moving worker swaps with its left
      neighbour. */
  method SwapDown(a: array<Worker>, j: nat, i: nat)
    requires 0 < j <= i < a.Length && Inserting(a[..], j, i) && Less(a[..], j, j - 1)
    modifies a
    ensures Inserting(a[..], j - 1, i)
    ensures multiset(a[..]) == multiset(old(a[..]))
  {
    InsertSwap(a[..], j, i);
    SwappedPermutes(a[..], j - 1, j);
    Swap(a, j - 1, j);
  }

  /** One round of insertion: worker `i` moves left past every later-indexed
      worker, so the first `i + 1` workers are in order. */
  method InsertByIndex(a: array<Worker>, i: nat)
    requires i < a.Length && SortedByIndex(a[..i])
    modifies a
    ensures SortedByIndex(a[..i + 1])
    ensures multiset(a[..]) == multiset(old(a[..]))
  {
    InsertStart(a[..], i);
    var j := i;
    while j > 0 && Less(a[..], j, j - 1)
      invariant 0 <= j <= i
      invariant Inserting(a[..], j, i)
      invariant multiset(a[..]) == multiset(old(a[..]))
    {
      SwapDown(a, j, i);
      j := j - 1;
    }
    InsertDone(a[..], j, i);
  }

  /** `sort.Sort(workerList)`: orders the list by index through `Less` and
      `Swap` (by insertion), keeping the same workers. */
  method SortByIndex(a: array<Worker>)
    modifies a
    ensures SortedByIndex(a[..])
    ensures multiset(a[..]) == multiset(old(a[..]))
    ensures Distinct(old(a[..])) ==> Distinct(a[..])
  {
    var i := 0;
    while i < a.Length
      invariant 0 <= i <= a.Length
      invariant SortedByIndex(a[..i])
      invariant multiset(a[..]) == multiset(old(a[..]))
    {
      InsertByIndex(a, i);
      i := i + 1;
    }
    assert a[..i] == a[..];
    if Distinct(old(a[..])) {
      MultisetKeepsDistinct(a[..], old(a[..]));
    }
  }
}
