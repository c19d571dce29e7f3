/** The swarm pool controller's read side, over the informers' listers:
    the names of a statefulset's pods that can still serve, the swarm that
    owns a statefulset, and single lookups that wrap the lister's error. */
module SwarmProvider {
  import opened Wrappers
  import opened Kube
  import PodState
  import SwarmApi
  import SelectorStore

  /** A pod still counts as a worker while none of its containers has
      terminated and it is not marked for deletion. */
  ghost predicate Serving(p: Pod)
  {
    !PodState.SomeContainerTerminated(p) && !PodState.HasDeletionTimestamp(p)
  }

  /** The names of the serving pods, in list order. */
  ghost function ServingNames(pods: seq<Pod>): (names: seq<string>)
    ensures |names| <= |pods|
  {
    if pods == [] then []
    else
      var p := pods[|pods| - 1];
      ServingNames(pods[..|pods| - 1]) + (if Serving(p) then [p.meta.name] else [])
  }

  /** A name is listed exactly when some serving pod carries it. */
  lemma {:induction false} ServingNamesExact(pods: seq<Pod>, n: string)
    ensures n in ServingNames(pods) <==>
      exists i :: 0 <= i < |pods| && Serving(pods[i]) && pods[i].meta.name == n
  {
    if pods != [] {
      var init := pods[..|pods| - 1];
      ServingNamesExact(init, n);
      if exists i :: 0 <= i < |pods| && Serving(pods[i]) && pods[i].meta.name == n {
        var i :| 0 <= i < |pods| && Serving(pods[i]) && pods[i].meta.name == n;
        if i < |init| {
          assert init[i] == pods[i];
        }
      }
      if n in ServingNames(init) {
        var i :| 0 <= i < |init| && Serving(init[i]) && init[i].meta.name == n;
        assert pods[i] == init[i];
      }
    }
  }

  /** When every pod serves, every pod's name is listed, in order. */
  lemma {:induction false} AllServingAllNamed(pods: seq<Pod>)
    requires forall i :: 0 <= i < |pods| ==> Serving(pods[i])
    ensures |ServingNames(pods)| == |pods|
    ensures forall i :: 0 <= i < |pods| ==> ServingNames(pods)[i] == pods[i].meta.name
  {
    if pods != [] {
      AllServingAllNamed(pods[..|pods| - 1]);
    }
  }

  /** The first swarm of the list whose statefulset is `name`, by name. */
  function FirstOwner(swarms: seq<SwarmApi.Swarm>, name: string): (r: Option<string>)
  {
    if swarms == [] then None
    else if swarms[0].spec.statefulSetName == name then Some(swarms[0].meta.name)
    else FirstOwner(swarms[1..], name)
  }

  /** An owner is found exactly when some swarm names the statefulset, and
      it is the first such swarm of the list. */
  lemma {:induction false} FirstOwnerIsFirst(swarms: seq<SwarmApi.Swarm>, name: string)
    ensures FirstOwner(swarms, name).Some? <==>
      exists i :: 0 <= i < |swarms| && swarms[i].spec.statefulSetName == name
    ensures FirstOwner(swarms, name).Some? ==>
      exists i :: 0 <= i < |swarms| && swarms[i].spec.statefulSetName == name &&
        swarms[i].meta.name == FirstOwner(swarms, name).value &&
        forall j :: 0 <= j < i ==> swarms[j].spec.statefulSetName != name
  {
    if swarms != [] && swarms[0].spec.statefulSetName != name {
      FirstOwnerIsFirst(swarms[1..], name);
      if exists i :: 0 <= i < |swarms| && swarms[i].spec.statefulSetName == name {
        var i :| 0 <= i < |swarms| && swarms[i].spec.statefulSetName == name;
        assert swarms[1..][i - 1] == swarms[i];
      }
      if FirstOwner(swarms, name).Some? {
        var i :| 0 <= i < |swarms[1..]| && swarms[1..][i].spec.statefulSetName == name &&
          swarms[1..][i].meta.name == FirstOwner(swarms, name).value &&
          forall j :: 0 <= j < i ==> swarms[1..][j].spec.statefulSetName != name;
        assert forall j :: 0 <= j < i + 1 ==> swarms[j].spec.statefulSetName != name by {
          forall j | 0 <= j < i + 1
            ensures swarms[j].spec.statefulSetName != name
          {
            if j > 0 {
              assert swarms[j] == swarms[1..][j - 1];
            }
          }
        }
        assert swarms[i + 1] == swarms[1..][i];
      }
    }
  }

  class Provider {
    /** `swarmLister.Swarms(namespace).Get(name)`. */
    const swarms: (string, string) -> Result<SwarmApi.Swarm, string>
    /** `swarmLister.Swarms(namespace).List(labels.NewSelector())`. */
    const swarmList: string -> Result<seq<SwarmApi.Swarm>, string>
    /** `statefulSetLister.StatefulSets(namespace).Get(name)`. */
    const statefulSets: (string, string) -> Result<StatefulSet, string>
    /** `metav1.LabelSelectorAsSelector`. */
    const asSelector: LabelSelector -> Result<SelectorStore.LabelSelector, string>
    /** `podLister.Pods(namespace).List(selector)`. */
    const pods: (string, SelectorStore.LabelSelector) -> Result<seq<Pod>, string>

    /** `NewProvider(swarmLister, statefulSetLister, podLister)`. */
    constructor (swarms: (string, string) -> Result<SwarmApi.Swarm, string>,
                 swarmList: string -> Result<seq<SwarmApi.Swarm>, string>,
                 statefulSets: (string, string) -> Result<StatefulSet, string>,
                 asSelector: LabelSelector -> Result<SelectorStore.LabelSelector, string>,
                 pods: (string, SelectorStore.LabelSelector) -> Result<seq<Pod>, string>)
      ensures this.swarms == swarms && this.swarmList == swarmList && this.statefulSets == statefulSets
      ensures this.asSelector == asSelector && this.pods == pods
    {
      this.swarms := swarms;
      this.swarmList := swarmList;
      this.statefulSets := statefulSets;
      this.asSelector := asSelector;
      this.pods := pods;
    }

    /** What `PodNamesFromSelector` answers: a conversion or listing error,
        or the names of the serving pods. */
    ghost function PodNames(namespace: string, ls: LabelSelector): Result<seq<string>, string>
    {
      match asSelector(ls)
      case Err(e) => Err("unable to get label selector, error " + e)
      case Ok(selector) =>
        match pods(namespace, selector)
        case Err(e) => Err("unable to get pods from selector, error " + e)
        case Ok(ps) => Ok(ServingNames(ps))
    }

    /** `PodNamesFromSelector`: the listed pods are scanned, skipping the
        terminated ones and those marked for deletion. */
    method PodNamesFromSelector(namespace: string, ls: LabelSelector) returns (r: Result<seq<string>, string>)
      ensures r == PodNames(namespace, ls)
    {
      var selector := asSelector(ls);
      if selector.Err? {
        return Err("unable to get label selector, error " + selector.error);
      }
      var listed := pods(namespace, selector.value);
      if listed.Err? {
        return Err("unable to get pods from selector, error " + listed.error);
      }
      var ps := listed.value;
      var names := [];
      var i := 0;
      while i < |ps|
        invariant 0 <= i <= |ps|
        invariant names == ServingNames(ps[..i])
      {
        assert ps[..i + 1][..i] == ps[..i];
        var terminated := PodState.IsTerminated(ps[i]);
        if !(terminated || PodState.HasDeletionTimestamp(ps[i])) {
          names := names + [ps[i].meta.name];
        }
        i := i + 1;
      }
      assert ps[..i] == ps;
      return Ok(names);
    }

    /** `StatefulSet`: the lister's statefulset, or its error wrapped; the
        message prints the name where it announces the namespace and the
        other way round. */
    function LookupStatefulSet(namespace: string, name: string): (r: Result<StatefulSet, string>)
      ensures r.Ok? <==> statefulSets(namespace, name).Ok?
      ensures r.Ok? ==> r.value == statefulSets(namespace, name).value
    {
      match statefulSets(namespace, name)
      case Err(e) => Err("unable to get statefulset on namespace " + name + " name " + namespace + " error " + e)
      case Ok(sts) => Ok(sts)
    }

    /** `StatefulSetFromSwarmName`: the statefulset the swarm names, looked
        up in the swarm's own namespace. */
    function StatefulSetFromSwarmName(namespace: string, name: string): (r: Result<StatefulSet, string>)
      ensures swarms(namespace, name).Err? ==>
        r == Err("unable to get swarm namespace " + namespace + " name " + name)
      ensures swarms(namespace, name).Ok? ==>
        var sw := swarms(namespace, name).value;
        (r.Ok? <==> statefulSets(sw.meta.namespace, sw.spec.statefulSetName).Ok?) &&
        (r.Ok? ==> r.value == statefulSets(sw.meta.namespace, sw.spec.statefulSetName).value)
    {
      match swarms(namespace, name)
      case Err(_) => Err("unable to get swarm namespace " + namespace + " name " + name)
      case Ok(sw) =>
        match statefulSets(sw.meta.namespace, sw.spec.statefulSetName)
        case Err(e) =>
          Err("unable to get statefulset from swarm " + sw.meta.name + " on namespace " + sw.meta.namespace +
              " name " + sw.spec.statefulSetName + " error " + e)
        case Ok(sts) => Ok(sts)
    }

    /** `Swarm`: the lister's swarm, or its error wrapped. */
    function LookupSwarm(namespace: string, name: string): (r: Result<SwarmApi.Swarm, string>)
      ensures r.Ok? <==> swarms(namespace, name).Ok?
      ensures r.Ok? ==> r.value == swarms(namespace, name).value
      ensures r.Err? ==>
        r.error == "unable to get swarm namespace " + namespace + " name " + name + " error " + swarms(namespace, name).error
    {
      match swarms(namespace, name)
      case Err(e) => Err("unable to get swarm namespace " + namespace + " name " + name + " error " + e)
      case Ok(sw) => Ok(sw)
    }

    /** What `SwarmNameFromStatefulSetName` answers: a listing error, the
        first owner, or an error naming the statefulset. */
    function Owner(namespace: string, name: string): Result<string, string>
    {
      match swarmList(namespace)
      case Err(_) => Err("unable to list swarm namespace " + namespace + " name " + name)
      case Ok(sws) =>
        match FirstOwner(sws, name)
        case Some(n) => Ok(n)
        case None => Err("unable to find swarm name from statefulset " + name)
    }

    /** `SwarmNameFromStatefulSetName`: the listed swarms are scanned and
        the first whose statefulset is `name` answers. */
    method SwarmNameFromStatefulSetName(namespace: string, name: string) returns (r: Result<string, string>)
      ensures r == Owner(namespace, name)
    {
      var listed := swarmList(namespace);
      if listed.Err? {
        return Err("unable to list swarm namespace " + namespace + " name " + name);
      }
      var sws := listed.value;
      var i := 0;
      while i < |sws|
        invariant 0 <= i <= |sws|
        invariant FirstOwner(sws[i..], name) == FirstOwner(sws, name)
      {
        assert sws[i..][1..] == sws[i + 1..];
        if sws[i].spec.statefulSetName == name {
          return Ok(sws[i].meta.name);
        }
        i := i + 1;
      }
      return Err("unable to find swarm name from statefulset " + name);
    }
  }
}
