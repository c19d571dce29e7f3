/** The `Swarm` custom resource (`swarms`, version `v1alpha1`): a swarm
    names its statefulset and configmap, carries the job list, a version
    and a size, and lists its members with the jobs each one holds. Jobs of
    the resource are a type of their own, converted one by one to and from
    the jobs of `pkg/config`. */
module SwarmApi {
  import opened Kube
  import Config

  const PhasePending := "PENDING"
  const PhaseRunning := "RUNNING"
  const PhaseDone := "DONE"

  /** `v1alpha1.Job`: a job name, distinct in type from `config.Job`. */
  datatype Job = Job(name: string)

  /** `v1alpha1.Status`. */
  datatype Status = Status(phase: string)

  /** `v1alpha1.Worker`, one member of the swarm. */
  datatype Member = Member(name: string, jobs: seq<Job>, createdAt: int, state: Status)

  /** `v1alpha1.SwarmSpec`. */
  datatype SwarmSpec = SwarmSpec(
    namespace: string,
    statefulSetName: string,
    configMapName: string,
    version: int,
    workload: seq<Job>,
    size: int,
    members: seq<Member>)

  /** `v1alpha1.Swarm`: object metadata, spec and status. */
  datatype Swarm = Swarm(meta: ObjectMeta, spec: SwarmSpec, status: Status)

  /** `v1alpha1.Job(job)` for each job, in order. */
  function JobsToAlpha(jobs: seq<Config.Job>): (r: seq<Job>)
    ensures |r| == |jobs|
    ensures forall i :: 0 <= i < |jobs| ==> r[i] == Job(jobs[i])
  {
    if jobs == [] then [] else JobsToAlpha(jobs[..|jobs| - 1]) + [Job(jobs[|jobs| - 1])]
  }

  /** `config.Job(job)` for each job, in order. */
  function JobsFromAlpha(jobs: seq<Job>): (r: seq<Config.Job>)
    ensures |r| == |jobs|
    ensures forall i :: 0 <= i < |jobs| ==> r[i] == jobs[i].name
  {
    if jobs == [] then [] else JobsFromAlpha(jobs[..|jobs| - 1]) + [jobs[|jobs| - 1].name]
  }

  /** Converting to the resource's jobs and back gives the jobs again. */
  lemma {:induction false} JobsRoundTrip(jobs: seq<Config.Job>)
    ensures JobsFromAlpha(JobsToAlpha(jobs)) == jobs
  {
    if jobs != [] {
      var init := jobs[..|jobs| - 1];
      JobsRoundTrip(init);
      assert JobsToAlpha(jobs)[..|jobs| - 1] == JobsToAlpha(init);
      assert jobs == init + [jobs[|jobs| - 1]];
    }
  }

  /** And the other way: the resource's jobs survive a trip through the
      configuration's jobs. */
  lemma {:induction false} AlphaRoundTrip(jobs: seq<Job>)
    ensures JobsToAlpha(JobsFromAlpha(jobs)) == jobs
  {
    if jobs != [] {
      var init := jobs[..|jobs| - 1];
      AlphaRoundTrip(init);
      assert JobsFromAlpha(jobs)[..|jobs| - 1] == JobsFromAlpha(init);
      assert jobs == init + [jobs[|jobs| - 1]];
    }
  }
}
