/** The pod predicates of `pkg/operator/pod`: when a pod can serve as a
    worker, whether it is on its way out, and the ordinal a statefulset
    gives it in its name. */
module PodState {
  import opened Wrappers
  import opened Kube
  import opened Text

  /** `ErrBadStatefulSetPodName`. */
  const BadStatefulSetPodName := "malformed pod name, expected statefulset pattern"

  /** Why a pod name yields no ordinal. */
  datatype IndexError = BadPodName | BadOrdinal(cause: NumError)

  predicate IsScheduled(p: Pod) { p.nodeName != "" }

  predicate IsHostNetworked(p: Pod) { p.hostNetwork }

  predicate HasIPAddress(p: Pod) { p.podIP != "" }

  predicate IsRunning(p: Pod) { p.phase == "Running" }

  predicate HasDeletionTimestamp(p: Pod) { p.meta.deletionTimestamp.Some? }

  /** `IsReadyPod`: the checks in the source's order, the first failing
      one deciding. */
  function IsReadyPod(p: Pod): (b: bool)
  {
    if IsHostNetworked(p) then false
    else if !HasIPAddress(p) then false
    else if !IsScheduled(p) then false
    else if !IsRunning(p) then false
    else true
  }

  /** A pod can serve as a worker exactly when it uses the pod network,
      has an address, is bound to a node and is running. */
  lemma ReadyPodIsConjunction(p: Pod)
    ensures IsReadyPod(p) <==> !p.hostNetwork && p.podIP != "" && p.nodeName != "" && p.phase == "Running"
  {
  }

  /** Some condition reports the pod `Ready` with status `True`. */
  ghost predicate ReadyCondition(p: Pod)
  {
    exists i :: 0 <= i < |p.conditions| && p.conditions[i] == PodCondition("Ready", "True")
  }

  /** Some container of the pod has terminated. */
  ghost predicate SomeContainerTerminated(p: Pod)
  {
    exists i :: 0 <= i < |p.containerStatuses| && p.containerStatuses[i].terminated
  }

  /** `IsReady`: the conditions are scanned for `Ready`/`True`. */
  method IsReady(p: Pod) returns (b: bool)
    ensures b <==> ReadyCondition(p)
  {
    var i := 0;
    while i < |p.conditions|
      invariant i <= |p.conditions|
      invariant forall j :: 0 <= j < i ==> p.conditions[j] != PodCondition("Ready", "True")
    {
      var cond := p.conditions[i];
      if cond.kind == "Ready" && cond.status == "True" {
        return true;
      }
      i := i + 1;
    }
    return false;
  }

  /** `IsTerminated`: the container statuses are scanned for a terminated
      state. */
  method IsTerminated(p: Pod) returns (b: bool)
    ensures b <==> SomeContainerTerminated(p)
  {
    var i := 0;
    while i < |p.containerStatuses|
      invariant i <= |p.containerStatuses|
      invariant forall j :: 0 <= j < i ==> !p.containerStatuses[j].terminated
    {
      if p.containerStatuses[i].terminated {
        return true;
      }
      i := i + 1;
    }
    return false;
  }

  /** `StatefulSetIndex`: the text after the last `-` of the pod name, read
      as a base-10 int64; a name with no `-` is not a statefulset pod's. */
  function StatefulSetIndex(name: string): (r: Result<int, IndexError>)
    ensures '-' !in name ==> r == Err(BadPodName)
    ensures r.Ok? ==> 0 <= r.value <= MaxInt64
  {
    var parts := Split(name, '-');
    if |parts| < 2 then Err(BadPodName)
    else
      SplitPiecesLackSeparator(name, '-');
      match ParseInt(parts[|parts| - 1])
      case Err(e) => Err(BadOrdinal(e))
      case Ok(i) =>
        ParseIntWithoutMinus(parts[|parts| - 1]);
        Ok(i)
  }

  /** The name a statefulset gives its `i`-th pod, `<prefix>-<i>`, yields
      `i` back. */
  lemma OrdinalRoundTrip(prefix: string, i: nat)
    requires i <= MaxInt64
    ensures StatefulSetIndex(prefix + "-" + Decimal(i)) == Ok(i)
  {
    assert '-' !in Decimal(i);
    SplitAtLastSeparator(prefix, '-', Decimal(i));
    assert prefix + "-" + Decimal(i) == prefix + ['-'] + Decimal(i);
    ParseIntOfDecimal(i);
  }
}
