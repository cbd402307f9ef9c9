/** The three engagement budgets: running capacity, represented targets, allocated duration. */
module Budgets {
  import opened Wrappers
  import opened Records

  /** A job row whose engagement row exists, as its foreign key demands. */
  predicate Known(w: World, j: JobId) {
    j in w.jobs && w.jobs[j].engagement in w.engagements
  }

  function ReservedJobs(w: World, e: EngagementId): set<JobId> {
    set j | j in w.executions && w.executions[j].reserved && j in w.jobs && w.jobs[j].engagement == e
  }

  function RunningJobs(w: World, e: EngagementId): set<JobId> {
    set j | j in w.jobs && w.jobs[j].engagement == e && w.jobs[j].status == Running
  }

  /** No reserved capacity and no running job: the condition for changing any limit. */
  predicate Idle(w: World, e: EngagementId) {
    ReservedJobs(w, e) == {} && RunningJobs(w, e) == {}
  }

  function CheckCapacity(w: World, e: EngagementId, optedIn: bool): Check<Reason>
    requires e in w.engagements
  {
    match w.engagements[e].authority.limits.concurrency
    case None => if optedIn then Refuse(PolicyRequired) else Pass
    case Some(limit) =>
      if !optedIn then Refuse(BudgetedExecutionRequired)
      else Need(|ReservedJobs(w, e)| < limit, CapacityExhausted)
  }

  /** The origins a claim of this case is charged for, when the case has any bounded set of them. */
  function ExpectedBinding(spec: CaseSpec): Option<TargetBinding> {
    if spec.origins.Some? && 1 <= |spec.origins.value| <= 100
    then Some(TargetBinding(spec.hash, spec.origins.value))
    else None
  }

  function ChargeTargets(g: Engagement, tool: Tool, spec: Option<CaseSpec>,
                         supplied: Option<TargetBinding>): Result<nat, Reason> {
    match g.authority.limits.targets
    case None => if supplied.Some? then Failure(PolicyRequired) else Success(0)
    case Some(limit) =>
      :- Need(supplied.Some? && tool == Gate && spec.Some?, TargetBindingRequired);
      var expected := ExpectedBinding(spec.value);
      :- Need(expected.Some?, UnsupportedTargetCase);
      :- Need(supplied == expected, TargetBindingMismatch);
      var count := |expected.value.origins|;
      :- Need(g.targetsSpent + count <= limit, TargetsExhausted);
      Success(count)
  }

  function AllocateDuration(g: Engagement, seconds: Option<Seconds>): Result<nat, Reason> {
    match g.authority.limits.duration
    case None => if seconds.Some? then Failure(PolicyRequired) else Success(0)
    case Some(limit) =>
      :- Need(seconds.Some?, DurationRequired);
      :- Need(g.durationAllocated + seconds.value <= limit, DurationExhausted);
      var granted: nat := seconds.value;
      Success(granted)
  }

  function SumTargets(charges: seq<Charge>, e: EngagementId): nat {
    if charges == [] then 0
    else
      var last := charges[|charges| - 1];
      SumTargets(charges[..|charges| - 1], e) + if last.engagement == e then last.targets else 0
  }

  function SumSeconds(charges: seq<Charge>, e: EngagementId): nat {
    if charges == [] then 0
    else
      var last := charges[|charges| - 1];
      SumSeconds(charges[..|charges| - 1], e) + if last.engagement == e then last.seconds else 0
  }

  /** How many executions of this engagement were ever given a finite allocation. */
  function CountAllocations(charges: seq<Charge>, e: EngagementId): nat {
    if charges == [] then 0
    else
      var last := charges[|charges| - 1];
      CountAllocations(charges[..|charges| - 1], e) + if last.engagement == e && last.seconds > 0 then 1 else 0
  }
}
