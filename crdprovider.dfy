/** The swarm resource as the store of a pool's assignment: `Set` writes
    the versioned assignment into the swarm's members, one member per
    worker with its jobs, and `Get` decodes the members back into an
    assignment. A middleware chains two such stores, the second only
    written once the first accepted the assignment. */
module CrdProvider {
  import opened Wrappers
  import opened Kube
  import Config
  import SwarmApi

  /** Which store of the chain was called. */
  datatype Link = Prev | Next

  /** `ProviderMiddleware`: two chain members, as the answers their `Set`
      gives for an assignment. */
  datatype Middleware = Middleware(prev: Config.Workloads -> Outcome<string>, next: Config.Workloads -> Outcome<string>)
  {
    /** `Set`: the first member's error stops the chain; otherwise the
        second member's answer is the answer. Returns the answer and the
        members called, in order. */
    function Set(a: Config.Workloads): (r: (Outcome<string>, seq<Link>))
      ensures r.1 == (if prev(a).Pass? then [Prev, Next] else [Prev])
      ensures r.0 == Pass <==> prev(a).Pass? && next(a).Pass?
      ensures r.0.Fail? ==> r.0 == (if prev(a).Fail? then prev(a) else next(a))
    {
      if prev(a).Fail? then (prev(a), [Prev])
      else if next(a).Fail? then (next(a), [Prev, Next])
      else (Pass, [Prev, Next])
    }
  }

  /** How fetching the swarm can fail: with an API status error (the swarm
      is missing, say) or otherwise. */
  datatype GetError = StatusError(message: string) | OtherError(message: string)

  /** The names the members carry. */
  ghost function Names(members: seq<SwarmApi.Member>): set<string>
  {
    if members == [] then {} else Names(members[..|members| - 1]) + {members[|members| - 1].name}
  }

  /** The member `Set` builds for worker `n`: its jobs converted, the
      creation time and phase `RUNNING`. */
  function MemberOf(workloads: map<string, Config.Workload>, n: string, now: int): (m: SwarmApi.Member)
    requires n in workloads
    ensures m.name == n && SwarmApi.JobsFromAlpha(m.jobs) == workloads[n].jobs
  {
    SwarmApi.JobsRoundTrip(workloads[n].jobs);
    SwarmApi.Member(n, SwarmApi.JobsToAlpha(workloads[n].jobs), now, SwarmApi.Status(SwarmApi.PhaseRunning))
  }

  /** Members built for the workers `done`, one each. */
  ghost predicate Partial(members: seq<SwarmApi.Member>, workloads: map<string, Config.Workload>, now: int, done: set<string>)
  {
    Names(members) == done && |done| == |members| &&
    forall i :: 0 <= i < |members| ==> members[i].name in workloads && members[i] == MemberOf(workloads, members[i].name, now)
  }

  /** The members `Set` builds for `workloads`: one per worker, as many
      members as workers. */
  ghost predicate Lists(members: seq<SwarmApi.Member>, workloads: map<string, Config.Workload>, now: int)
  {
    Partial(members, workloads, now, workloads.Keys)
  }

  /** Building the member of one more worker. */
  lemma PartialStep(members: seq<SwarmApi.Member>, workloads: map<string, Config.Workload>, now: int,
                    done: set<string>, n: string)
    requires Partial(members, workloads, now, done) && n in workloads && n !in done
    ensures Partial(members + [MemberOf(workloads, n, now)], workloads, now, done + {n})
  {
    var ms := members + [MemberOf(workloads, n, now)];
    assert ms[..|members|] == members;
    assert forall i :: 0 <= i < |members| ==> ms[i] == members[i];
  }

  /** The member loop of `Set`: the workers are taken in whatever order
      the map yields them. */
  method BuildMembers(workloads: map<string, Config.Workload>, now: int) returns (members: seq<SwarmApi.Member>)
    ensures Lists(members, workloads, now)
  {
    members := [];
    var remaining := workloads.Keys;
    ghost var done: set<string> := {};
    while remaining != {}
      invariant done + remaining == workloads.Keys && done !! remaining
      invariant Partial(members, workloads, now, done)
      decreases |remaining|
    {
      var n :| n in remaining;
      PartialStep(members, workloads, now, done, n);
      members := members + [MemberOf(workloads, n, now)];
      done := done + {n};
      remaining := remaining - {n};
    }
  }

  /** `decode`'s loop: each member's jobs under its name, a later member
      overwriting an earlier one of the same name. */
  function DecodeMembers(members: seq<SwarmApi.Member>): (m: map<string, Config.Workload>)
  {
    if members == [] then map[]
    else
      var last := members[|members| - 1];
      DecodeMembers(members[..|members| - 1])[last.name := Config.Workload(SwarmApi.JobsFromAlpha(last.jobs))]
  }

  /** `decode`: the spec's version and its members' jobs by name; it
      never fails. */
  function Decode(spec: SwarmApi.SwarmSpec): (w: Config.Workloads)
    ensures w.version == spec.version
  {
    Config.Workloads(DecodeMembers(spec.members), spec.version)
  }

  /** Members whose jobs are those of `workloads`, converted, decode to
      `workloads` restricted to their names. */
  lemma {:induction false} DecodeRestricts(members: seq<SwarmApi.Member>, workloads: map<string, Config.Workload>)
    requires forall i :: 0 <= i < |members| ==>
      members[i].name in workloads && SwarmApi.JobsFromAlpha(members[i].jobs) == workloads[members[i].name].jobs
    ensures DecodeMembers(members) == map n | n in workloads && n in Names(members) :: workloads[n]
  {
    if members != [] {
      var init := members[..|members| - 1];
      var last := members[|members| - 1];
      assert forall i :: 0 <= i < |init| ==> init[i] == members[i];
      DecodeRestricts(init, workloads);
    }
  }

  /** The members `Set` builds decode to the assignment's workers and
      jobs. */
  lemma DecodeOfLists(members: seq<SwarmApi.Member>, workloads: map<string, Config.Workload>, now: int)
    requires Lists(members, workloads, now)
    ensures DecodeMembers(members) == workloads
  {
    DecodeRestricts(members, workloads);
  }

  /** The swarm `initializeCRD` creates when none exists: the provider's
      name and namespace, an empty spec. */
  function Initial(namespace: string, swarmName: string): (sw: SwarmApi.Swarm)
    ensures sw.meta.name == swarmName && sw.meta.namespace == namespace
    ensures sw.spec.members == [] && sw.spec.version == 0
  {
    SwarmApi.Swarm(ObjectMeta(namespace, swarmName, map[], None),
                   SwarmApi.SwarmSpec("", "", "", 0, [], 0, []), SwarmApi.Status(""))
  }

  class Provider {
    const namespace: string
    const swarmName: string
    /** The swarm client's `Get`, `Create` and `Update`. */
    const get: (string, string) -> Result<SwarmApi.Swarm, GetError>
    const create: SwarmApi.Swarm -> Result<SwarmApi.Swarm, string>
    const update: SwarmApi.Swarm -> Result<SwarmApi.Swarm, string>

    /** `NewProvider(client, namespace, swarmName)`. */
    constructor (namespace: string, swarmName: string,
                 get: (string, string) -> Result<SwarmApi.Swarm, GetError>,
                 create: SwarmApi.Swarm -> Result<SwarmApi.Swarm, string>,
                 update: SwarmApi.Swarm -> Result<SwarmApi.Swarm, string>)
      ensures this.namespace == namespace && this.swarmName == swarmName
      ensures this.get == get && this.create == create && this.update == update
    {
      this.namespace := namespace;
      this.swarmName := swarmName;
      this.get := get;
      this.create := create;
      this.update := update;
    }

    /** The swarm `Set` starts from: the fetched one, or, when the fetch
        failed with a status error, the one `initializeCRD` creates. */
    function Base(): (r: Result<SwarmApi.Swarm, string>)
      ensures get(namespace, swarmName).Ok? ==> r == Ok(get(namespace, swarmName).value)
      ensures get(namespace, swarmName).Err? && get(namespace, swarmName).error.OtherError? ==>
        r == Err("unable to get swarm map " + get(namespace, swarmName).error.message)
      ensures get(namespace, swarmName).Err? && get(namespace, swarmName).error.StatusError? ==>
        (r.Ok? <==> create(Initial(namespace, swarmName)).Ok?) &&
        (create(Initial(namespace, swarmName)).Ok? ==> r == Ok(create(Initial(namespace, swarmName)).value)) &&
        (create(Initial(namespace, swarmName)).Err? ==>
           r == Err("unable to initialize CRD, error " + create(Initial(namespace, swarmName)).error))
    {
      match get(namespace, swarmName)
      case Ok(sw) => Ok(sw)
      case Err(OtherError(e)) => Err("unable to get swarm map " + e)
      case Err(StatusError(_)) =>
        match create(Initial(namespace, swarmName))
        case Err(e) => Err("unable to initialize CRD, error " + e)
        case Ok(sw) => Ok(sw)
    }

    /** `Set`: the base swarm is sent to `Update` with the assignment's
        version, its worker count as size and one member per worker; the
        rest of the swarm is left as it was. Returns the answer and the
        swarm sent, if any. */
    method Set(a: Config.Workloads, now: int) returns (err: Outcome<string>, sent: Option<SwarmApi.Swarm>)
      ensures Base().Err? ==> err == Fail(Base().error) && sent == None
      ensures Base().Ok? ==>
        sent.Some? && sent.value.meta == Base().value.meta && sent.value.status == Base().value.status &&
        sent.value.spec.(version := Base().value.spec.version, size := Base().value.spec.size,
                         members := Base().value.spec.members) == Base().value.spec
      ensures sent.Some? ==>
        sent.value.spec.version == a.version && sent.value.spec.size == |a.workloads| &&
        Lists(sent.value.spec.members, a.workloads, now)
      ensures sent.Some? ==>
        (err == Pass <==> update(sent.value).Ok?) &&
        (err.Fail? ==> err == Fail("unable to update config map " + update(sent.value).error))
    {
      var base := Base();
      if base.Err? {
        return Fail(base.error), None;
      }
      var members := BuildMembers(a.workloads, now);
      var sw := base.value;
      sw := sw.(spec := sw.spec.(version := a.version, size := |a.workloads|, members := members));
      sent := Some(sw);
      var updated := update(sw);
      if updated.Err? {
        return Fail("unable to update config map " + updated.error), sent;
      }
      return Pass, sent;
    }

    /** `Get`: the fetched swarm's spec decoded. */
    function Get(): (r: Result<Config.Workloads, string>)
      ensures get(namespace, swarmName).Err? ==>
        r == Err("unable to get config map " + get(namespace, swarmName).error.message)
      ensures get(namespace, swarmName).Ok? ==> r.Ok? && r.value.version == get(namespace, swarmName).value.spec.version
    {
      match get(namespace, swarmName)
      case Err(e) => Err("unable to get config map " + e.message)
      case Ok(sw) => Ok(Decode(sw.spec))
    }
  }

  /** Once the swarm `Set` sent is the stored one, `Get` returns the
      assignment that was set. */
  lemma GetAfterSet(p: Provider, a: Config.Workloads, sw: SwarmApi.Swarm, now: int)
    requires sw.spec.version == a.version && Lists(sw.spec.members, a.workloads, now)
    requires p.get(p.namespace, p.swarmName) == Ok(sw)
    ensures p.Get() == Ok(a)
  {
    DecodeOfLists(sw.spec.members, a.workloads, now);
  }
}
