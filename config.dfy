/** Job-set algebra over workloads: a workload is an ordered list of jobs,
    and a versioned set of workloads maps a worker name to its workload.
    Go's `map[string]struct{}` used as a set becomes a Dafny `set`. */
module Config {
  import opened Wrappers

  /** A task assigned to a worker. */
  type Job = string

  /** `Excluded(a, b)`: the elements of `a` that do not occur in `b`, in the
      order of `a` and with their repetitions. */
  function Excluded(a: seq<Job>, b: seq<Job>): (r: seq<Job>)
    ensures |r| <= |a|
    ensures forall x :: x in r <==> x in a && x !in b
    decreases |a|
  {
    if a == [] then []
    else if a[0] in b then Excluded(a[1..], b)
    else [a[0]] + Excluded(a[1..], b)
  }

  /** Excluded keeps the order of its first argument: it is a subsequence,
      obtained by dropping the elements found in `b`. */
  lemma {:induction false} ExcludedOfAppend(a: seq<Job>, x: Job, b: seq<Job>)
    ensures Excluded(a + [x], b) == Excluded(a, b) + (if x in b then [] else [x])
    decreases |a|
  {
    if a == [] {
      assert a + [x] == [x];
    } else {
      assert (a + [x])[1..] == a[1..] + [x];
      ExcludedOfAppend(a[1..], x, b);
    }
  }

  /** One more element of `a` extends the exclusion of its prefix. */
  lemma ExcludedPrefixStep(a: seq<Job>, i: nat, b: seq<Job>)
    requires i < |a|
    ensures Excluded(a[..i + 1], b) == Excluded(a[..i], b) + (if a[i] in b then [] else [a[i]])
  {
    assert a[..i + 1] == a[..i] + [a[i]];
    ExcludedOfAppend(a[..i], a[i], b);
  }

  /** Nothing is excluded exactly when every element of `a` occurs in `b`. */
  lemma ExcludedEmpty(a: seq<Job>, b: seq<Job>)
    ensures Excluded(a, b) == [] <==> forall x :: x in a ==> x in b
  {
    if Excluded(a, b) != [] {
      assert Excluded(a, b)[0] in Excluded(a, b);
    }
  }

  /** Two job lists are interchangeable for `Workload.Equals`: the same
      length and the same jobs, whatever their order or repetitions. */
  ghost predicate Equivalent(a: seq<Job>, b: seq<Job>)
  {
    |a| == |b| && forall x :: x in a <==> x in b
  }

  /** `toMap`: the set of the jobs of a list. */
  method ToMap(jobs: seq<Job>) returns (res: set<Job>)
    ensures forall x :: x in res <==> x in jobs
  {
    res := {};
    var i := 0;
    while i < |jobs|
      invariant 0 <= i <= |jobs|
      invariant forall x :: x in res <==> x in jobs[..i]
    {
      assert jobs[..i + 1] == jobs[..i] + [jobs[i]];
      res := res + {jobs[i]};
      i := i + 1;
    }
    assert jobs[..i] == jobs;
  }

  /** `jobsEquals(o, t)`: the same length and every element of `o` occurs in
      `t` (the converse is not checked). */
  method JobsEquals(o: seq<Job>, t: seq<Job>) returns (eq: bool)
    ensures eq <==> |o| == |t| && forall k | 0 <= k < |o| :: o[k] in t
  {
    if |o| != |t| {
      return false;
    }
    var theirs := ToMap(t);
    var i := 0;
    while i < |o|
      invariant 0 <= i <= |o|
      invariant forall k | 0 <= k < i :: o[k] in t
    {
      if o[i] !in theirs {
        return false;
      }
      i := i + 1;
    }
    return true;
  }

  /** `jobsEquals` is not symmetric: duplicates on one side hide a job
      missing from the other. */
  lemma JobsEqualsAsymmetric()
    ensures Equivalent(["a", "a"], ["a", "a"])
    ensures |["a", "a"]| == |["a", "b"]| && forall k | 0 <= k < 2 :: ["a", "a"][k] in ["a", "b"]
    ensures !(forall k | 0 <= k < 2 :: ["a", "b"][k] in ["a", "a"])
  {
    assert ["a", "b"][1] == "b";
    assert "b" !in ["a", "a"];
  }

  /** The jobs assigned to one worker. */
  datatype Workload = Workload(jobs: seq<Job>)
  {
    /** `a.Difference(b)`: `included` holds the jobs of `b` missing from
        `a`, `excluded` the jobs of `a` missing from `b`, each in its own
        list's order. */
    method Difference(newWorkload: Workload) returns (included: seq<Job>, excluded: seq<Job>)
      ensures excluded == Excluded(jobs, newWorkload.jobs)
      ensures included == Excluded(newWorkload.jobs, jobs)
    {
      var newAssigned := ToMap(newWorkload.jobs);
      excluded := [];
      var i := 0;
      while i < |jobs|
        invariant 0 <= i <= |jobs|
        invariant excluded == Excluded(jobs[..i], newWorkload.jobs)
      {
        ExcludedPrefixStep(jobs, i, newWorkload.jobs);
        if jobs[i] !in newAssigned {
          excluded := excluded + [jobs[i]];
        }
        i := i + 1;
      }
      assert jobs[..i] == jobs;

      var current := ToMap(jobs);
      included := [];
      var j := 0;
      while j < |newWorkload.jobs|
        invariant 0 <= j <= |newWorkload.jobs|
        invariant included == Excluded(newWorkload.jobs[..j], jobs)
      {
        ExcludedPrefixStep(newWorkload.jobs, j, jobs);
        if newWorkload.jobs[j] !in current {
          included := included + [newWorkload.jobs[j]];
        }
        j := j + 1;
      }
      assert newWorkload.jobs[..j] == newWorkload.jobs;
    }

    /** `a.Equals(wrk)`: false for a nil argument; otherwise true exactly
        when both lists have the same length and the same jobs. */
    method Equals(wrk: Option<Workload>) returns (eq: bool)
      ensures eq <==> wrk.Some? && Equivalent(jobs, wrk.value.jobs)
    {
      if wrk.None? {
        return false;
      }
      if |jobs| != |wrk.value.jobs| {
        return false;
      }
      var i, e := Difference(wrk.value);
      ExcludedEmpty(jobs, wrk.value.jobs);
      ExcludedEmpty(wrk.value.jobs, jobs);
      return |i| == 0 && |e| == 0;
    }
  }

  /** Equivalence of job lists is symmetric, so `a.Equals(b)` and
      `b.Equals(a)` always agree. */
  lemma EquivalentSymmetric(a: seq<Job>, b: seq<Job>)
    requires Equivalent(a, b)
    ensures Equivalent(b, a)
  {
  }

  /** Every reordering of a job list is equal to it, in both directions. */
  lemma {:induction false} PermutationEquivalent(a: seq<Job>, b: seq<Job>)
    requires multiset(a) == multiset(b)
    ensures Equivalent(a, b) && Equivalent(b, a)
  {
    assert |a| == |multiset(a)| == |multiset(b)| == |b|;
    forall x
      ensures x in a <==> x in b
    {
      assert x in a <==> x in multiset(a);
      assert x in b <==> x in multiset(b);
    }
  }

  /** `Workload.Equals` compares sets, not multisets: lists with the same
      length and the same jobs but different repetition counts are equal. */
  lemma EquivalentIgnoresRepetitions()
    ensures Equivalent(["a", "a", "b"], ["a", "b", "b"])
    ensures multiset(["a", "a", "b"]) != multiset(["a", "b", "b"])
  {
    var m: multiset<Job> := multiset(["a", "a", "b"]);
    assert m["a"] == 2;
    assert multiset(["a", "b", "b"])["a"] == 1;
  }

  /** The versioned assignment of workloads to worker names. */
  datatype Workloads = Workloads(workloads: map<string, Workload>, version: int)
  {
    /** `a.Equals(asg)`: false for a nil argument or a different version;
        otherwise every worker of `a` must be present in `asg` with an equal
        workload. Workers only present in `asg` are ignored. */
    method Equals(asg: Option<Workloads>) returns (eq: bool)
      ensures eq <==> asg.Some? && Covers(asg.value)
    {
      if asg.None? {
        return false;
      }
      if asg.value.version != version {
        return false;
      }
      var remaining := workloads.Keys;
      while remaining != {}
        invariant remaining <= workloads.Keys
        invariant forall s | s in workloads && s !in remaining ::
                    s in asg.value.workloads && Equivalent(asg.value.workloads[s].jobs, workloads[s].jobs)
        decreases |remaining|
      {
        var s :| s in remaining;
        if s !in asg.value.workloads {
          return false;
        }
        var v := asg.value.workloads[s];
        var same := v.Equals(Some(workloads[s]));
        if !same {
          return false;
        }
        remaining := remaining - {s};
      }
      return true;
    }

    /** What `Equals` checks of a non-nil argument. */
    ghost predicate Covers(asg: Workloads)
    {
      asg.version == version &&
      forall s | s in workloads ::
        s in asg.workloads && Equivalent(asg.workloads[s].jobs, workloads[s].jobs)
    }
  }

  /** Equality of versioned workloads is reflexive. */
  lemma CoversReflexive(a: Workloads)
    ensures a.Covers(a)
  {
  }

  /** Equality of versioned workloads is not symmetric: a worker present
      only in the argument is not looked at. */
  lemma CoversIgnoresExtraWorkers(a: Workloads, name: string, w: Workload)
    requires name !in a.workloads
    ensures a.Covers(Workloads(a.workloads[name := w], a.version))
    ensures !Workloads(a.workloads[name := w], a.version).Covers(a)
  {
    var b := Workloads(a.workloads[name := w], a.version);
    assert name in b.workloads && name !in a.workloads;
  }
}
