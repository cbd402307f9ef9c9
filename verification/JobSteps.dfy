/** The job and engagement routes, each as one transaction: refused, or a new store and a reply. */
module JobSteps {
  import opened Wrappers
  import opened Records
  import opened Budgets
  import opened AuthorityEdits

  type Step = Result<Commit, Reason>

  function Committed(w: World, r: Reply): Step {
    Success(Commit(w, r))
  }

  function WithEngagement(w: World, e: EngagementId, g: Engagement): World {
    w.(engagements := w.engagements[e := g])
  }

  function WithJob(w: World, j: JobId, job: Job): World {
    w.(jobs := w.jobs[j := job])
  }

  function WithExecution(w: World, j: JobId, x: Execution): World {
    w.(executions := w.executions[j := x])
  }

  predicate Managed(job: Job) {
    job.contractRequired || job.approval.Some?
  }

  // ----- Engagement routes -----

  function CreateEngagement(w: World, e: EngagementId, owner: UserId, kind: string, status: string): Step {
    var unused := e !in w.history.engagements && e !in w.engagements;
    :- Need(unused, AlreadyExists);
    var a := Authority(kind, status, None, None, None, map[], map[], false, Limits(None, None, None));
    Committed(WithEngagement(w, e, Engagement(owner, a, map[], map[], 0, 0, 0))
              .(history := w.history.(engagements := w.history.engagements + {e})), Plain)
  }

  function EditEngagement(w: World, e: EngagementId, edit: Edit): Step {
    var found := e in w.engagements;
    :- Need(found, NotFound);
    var g :- Edited(w.engagements[e], edit);
    Committed(WithEngagement(w, e, g), Plain)
  }

  /** Setting limits: the revision moves only when the limit does. */
  function WithLimits(g: Engagement, limits: Limits): Engagement {
    g.(revision := if limits == g.authority.limits then g.revision else g.revision + 1,
    authority := g.authority.(limits := limits))
  }

  function ConfigureConcurrency(w: World, e: EngagementId, limit: Option<Limit>): Step {
    var found := e in w.engagements;
    :- Need(found, NotFound);
    :- Need(Idle(w, e), WorkUnresolved);
    var g := w.engagements[e];
    Committed(WithEngagement(w, e, WithLimits(g, g.authority.limits.(concurrency := limit))), Plain)
  }

  function ConfigureTargets(w: World, e: EngagementId, limit: Option<Limit>): Step {
    var found := e in w.engagements;
    :- Need(found, NotFound);
    :- Need(Idle(w, e), WorkUnresolved);
    var g := w.engagements[e];
    :- Need(if limit.None? then g.targetsSpent == 0 else g.targetsSpent <= limit.value, BudgetSpent);
    Committed(WithEngagement(w, e, WithLimits(g, g.authority.limits.(targets := limit))), Plain)
  }

  function ConfigureDuration(w: World, e: EngagementId, limit: Option<Limit>): Step {
    var found := e in w.engagements;
    :- Need(found, NotFound);
    :- Need(Idle(w, e), WorkUnresolved);
    var g := w.engagements[e];
    :- Need(if limit.None? then g.durationAllocated == 0 else g.durationAllocated <= limit.value, BudgetSpent);
    Committed(WithEngagement(w, e, WithLimits(g, g.authority.limits.(duration := limit))), Plain)
  }

  /** Deleting an engagement takes its jobs, their executions and their upload receipts with it. */
  function DeleteEngagement(w: World, e: EngagementId): Step {
    var found := e in w.engagements;
    :- Need(found, NotFound);
    var g := w.engagements[e];
    :- Need((g.authority.limits.concurrency.None? && ReservedJobs(w, e) == {}) || Idle(w, e), WorkUnresolved);
    :- Need(g.targetsSpent == 0 && g.durationAllocated == 0, BudgetSpent);
    var gone := set j | j in w.jobs && w.jobs[j].engagement == e;
    Committed(w.(engagements := w.engagements - {e}, jobs := w.jobs - gone,
              executions := w.executions - gone, receipts := w.receipts - gone), Plain)
  }

  function Braked(x: Execution): Execution {
    if x.phase == Active then x.(phase := CancelRequested) else x
  }

  /** Pull the brake: every active execution of the engagement is asked to cancel. */
  function EngageStopWork(w: World, e: EngagementId): Step {
    var found := e in w.engagements;
    :- Need(found, NotFound);
    var g := w.engagements[e];
    var stopped := if g.authority.stopWork then g else Advanced(g).(authority := g.authority.(stopWork := true));
    var executions := map j | j in w.executions ::
                        if j in w.jobs && w.jobs[j].engagement == e then Braked(w.executions[j]) else w.executions[j];
    Committed(WithEngagement(w, e, stopped).(executions := executions), Plain)
  }

  function ReleaseStopWork(w: World, e: EngagementId): Step {
    var found := e in w.engagements;
    :- Need(found, NotFound);
    var g := w.engagements[e];
    var released := if g.authority.stopWork then Advanced(g).(authority := g.authority.(stopWork := false)) else g;
    Committed(WithEngagement(w, e, released), Plain)
  }

  // ----- Creating, polling, patching and deleting jobs -----

  datatype JobSpec = JobSpec(tool: Tool, testCase: Option<CaseId>, contractRequired: bool)

  predicate CaseResolved(g: Engagement, spec: JobSpec) {
    spec.tool == Gate ==> spec.testCase.Some? && spec.testCase.value in g.cases
  }

  function Added(w: World, e: EngagementId, j: JobId, spec: JobSpec, parent: Option<JobId>): World {
    var job := Job(e, spec.tool, spec.testCase, parent, Pending, spec.contractRequired, None, None, None, None);
    WithJob(w, j, job).(history := w.history.(jobs := w.history.jobs + {j}))
  }

  function CreateJob(w: World, e: EngagementId, j: JobId, spec: JobSpec, parent: Option<JobId>): Step {
    var found := e in w.engagements;
    :- Need(found, NotFound);
    :- Need(j !in w.history.jobs && j !in w.jobs, AlreadyExists);
    :- Need(spec.contractRequired ==> spec.tool == Gate, WrongTool);
    :- Need(CaseResolved(w.engagements[e], spec), CaseNotFound);
    :- Need(parent.Some? ==> parent.value in w.jobs && w.jobs[parent.value].engagement == e, NotFound);
    :- Need(!w.engagements[e].authority.stopWork, StopWorkActive);
    Committed(Added(w, e, j, spec, parent), Plain)
  }

  /** A pipeline's stages, each waiting on the one before it. */
  function Chained(w: World, e: EngagementId, stages: seq<(JobId, JobSpec)>): World {
    if stages == [] then w
    else
      var front := stages[..|stages| - 1];
      var (j, spec) := stages[|stages| - 1];
      Added(Chained(w, e, front), e, j, spec, if front == [] then None else Some(front[|front| - 1].0))
  }

  /** The stages of a pipeline: one to eight, newly named, none contracted, each with the case it needs. */
  function CheckStages(w: World, e: EngagementId, stages: seq<(JobId, JobSpec)>): Check<Reason>
    requires e in w.engagements
  {
    if !(1 <= |stages| <= 8) then Refuse(InvalidStatus)
    else if !forall i :: 0 <= i < |stages| ==> stages[i].0 !in w.history.jobs && stages[i].0 !in w.jobs
    then Refuse(AlreadyExists)
    else if !forall i, k :: 0 <= i < k < |stages| ==> stages[i].0 != stages[k].0 then Refuse(AlreadyExists)
    else if !forall i :: 0 <= i < |stages| ==> !stages[i].1.contractRequired then Refuse(WrongTool)
    else Need(forall i :: 0 <= i < |stages| ==> CaseResolved(w.engagements[e], stages[i].1), CaseNotFound)
  }

  function CreatePipeline(w: World, e: EngagementId, stages: seq<(JobId, JobSpec)>): Step {
    var found := e in w.engagements;
    :- Need(found, NotFound);
    :- CheckStages(w, e, stages);
    Committed(Chained(w, e, stages), Plain)
  }

  /** The parent a job waits on has failed or no longer exists. */
  predicate Orphaned(w: World, j: JobId)
    requires j in w.jobs
  {
    var p := w.jobs[j].dependsOn;
    p.Some? && (p.value !in w.jobs || w.jobs[p.value].status == Failed)
  }

  /** Nothing to wait for: no parent, or the parent is done. */
  predicate Unblocked(w: World, j: JobId)
    requires j in w.jobs
  {
    var p := w.jobs[j].dependsOn;
    p.None? || (p.value in w.jobs && w.jobs[p.value].status == Done)
  }

  predicate CaseGone(w: World, j: JobId)
    requires j in w.jobs
  {
    var job := w.jobs[j];
    job.tool == Gate
    && !(job.engagement in w.engagements && job.testCase.Some?
         && job.testCase.value in w.engagements[job.engagement].cases)
  }

  /** The jobs one poll over these engagements fails. */
  predicate PollFails(w: World, visible: set<EngagementId>, j: JobId) {
    && j in w.jobs && w.jobs[j].status == Pending && w.jobs[j].engagement in visible
    && (Orphaned(w, j) || (Unblocked(w, j) && CaseGone(w, j)))
  }

  /** The jobs one poll hands to the runner. */
  predicate PollOffers(w: World, visible: set<EngagementId>, j: JobId) {
    && j in w.jobs && w.jobs[j].status == Pending && w.jobs[j].engagement in visible
    && Unblocked(w, j) && !CaseGone(w, j)
  }

  function Poll(w: World, visible: set<EngagementId>, now: Instant): World {
    w.(jobs := map j | j in w.jobs ::
      if PollFails(w, visible, j) then w.jobs[j].(status := Failed, completedAt := Some(now)) else w.jobs[j])
  }

  predicate MayPatch(from: Status, to: Status) {
    match from
    case Pending => to == Done || to == Failed
    case Running => to == Pending || to == Done || to == Failed
    case Done | Failed => false
  }

  function PatchJob(w: World, j: JobId, status: Status, now: Instant): Step {
    var found := Known(w, j);
    :- Need(found, NotFound);
    var job := w.jobs[j];
    if j in w.executions then
      var x := w.executions[j];
      :- Need(status == Failed && job.status == Running, OwnedFinalizationRequired);
      Committed(WithExecution(w, j, Braked(x)), State(Braked(x).phase))
    else if status == job.status && status != Running then Committed(w, Plain)
    else
      :- Need(MayPatch(job.status, status), InvalidStatus);
      var completedAt := if status == Done || status == Failed then Some(now) else job.completedAt;
      Committed(WithJob(w, j, job.(status := status, completedAt := completedAt)), Plain)
  }

  function DeleteJob(w: World, j: JobId): Step {
    var found := Known(w, j);
    :- Need(found, NotFound);
    :- Need(!(j in w.executions && w.executions[j].reserved), ReservedCapacity);
    Committed(w.(jobs := w.jobs - {j}, executions := w.executions - {j}, receipts := w.receipts - {j}), Plain)
  }

  // ----- Claiming, renewing and finishing without a managed contract -----

  /** The job starts; its engagement is charged; the charge is recorded for good. */
  function Started(w: World, j: JobId, snapshot: Option<CaseSpec>, at: Instant, targets: nat, seconds: nat): World
    requires Known(w, j)
  {
    var job := w.jobs[j];
    var g := w.engagements[job.engagement];
    var charged := g.(targetsSpent := g.targetsSpent + targets, durationAllocated := g.durationAllocated + seconds);
    WithEngagement(WithJob(w, j, job.(status := Running, startedAt := Some(at), snapshot := snapshot)), job.engagement,
                   charged)
    .(history := w.history.(charges := w.history.charges + [Charge(job.engagement, j, targets, seconds)]))
  }

  function NewExecution(c: Control, targets: nat, seconds: nat, system: Instant): Execution {
    Execution(c.holder, system + LEASE, Active, c.concurrency, targets, seconds)
  }

  function ClaimSnapshot(w: World, j: JobId): Result<Option<CaseSpec>, Reason>
    requires Known(w, j)
  {
    var job := w.jobs[j];
    var cases := w.engagements[job.engagement].cases;
    if job.tool != Gate then Success(None)
    else if job.testCase.Some? && job.testCase.value in cases then Success(Some(cases[job.testCase.value]))
    else Failure(CaseNotFound)
  }

  function LegacyClaim(w: World, j: JobId, control: Option<Control>, now: Instant, system: Instant): Step {
    var found := Known(w, j);
    :- Need(found, NotFound);
    var job := w.jobs[j];
    var g := w.engagements[job.engagement];
    :- Need(!Managed(job), ManagedRequired);
    :- Need(job.status == Pending, InvalidStatus);
    :- CheckCapacity(w, job.engagement, control.Some? && control.value.concurrency);
    :- Need(!g.authority.stopWork, StopWorkActive);
    var snapshot :- ClaimSnapshot(w, j);
    var targets :- ChargeTargets(g, job.tool, snapshot, if control.Some? then control.value.binding else None);
    var seconds :- AllocateDuration(g, if control.Some? then control.value.seconds else None);
    var started := Started(w, j, snapshot, now, targets, seconds);
    if control.None? then Committed(started, Claimed(None))
    else
      var x := NewExecution(control.value, targets, seconds, system);
      Committed(WithExecution(started, j, x), Claimed(Some(x)))
  }

  predicate Owned(w: World, j: JobId, holder: Holder) {
    Known(w, j) && j in w.executions && w.executions[j].holder == holder
  }

  /** The phase a legacy renewal leaves: the brake first, then the lease. */
  function Settled(x: Execution, stopWork: bool, system: Instant): Phase {
    if x.phase != Active then x.phase
    else if stopWork then CancelRequested
    else if x.expiresAt <= system then Uncertain
    else Active
  }

  function LegacyRefresh(w: World, j: JobId, holder: Holder, system: Instant, renewal: Instant): Step {
    var found := Owned(w, j, holder);
    :- Need(found, NotFound);
    var job, x := w.jobs[j], w.executions[j];
    :- Need(!Managed(job), ManagedRequired);
    var phase := Settled(x, w.engagements[job.engagement].authority.stopWork, system);
    var go := phase == Active && job.status == Running;
    Committed(WithExecution(w, j, x.(phase := phase, expiresAt := if go then renewal + LEASE else x.expiresAt)),
              Action(go))
  }

  function FinishedStatus(outcome: Outcome): Status {
    if outcome == Completed then Done else Failed
  }

  /** End an execution: its capacity is released and its job takes the matching status. */
  function Terminated(w: World, j: JobId, outcome: Outcome, at: Instant): World
    requires j in w.jobs && j in w.executions
  {
    WithExecution(WithJob(w, j, w.jobs[j].(status := FinishedStatus(outcome), completedAt := Some(at))),
                  j, w.executions[j].(phase := Ended(outcome), reserved := false))
  }

  function LegacyFinish(w: World, j: JobId, holder: Holder, outcome: FinishOutcome, system: Instant,
                        now: Instant): Step {
    var found := Owned(w, j, holder);
    :- Need(found, NotFound);
    var job, x := w.jobs[j], w.executions[j];
    :- Need(!Managed(job), ManagedRequired);
    if x.phase.Ended? then
      :- Need(outcome == Definite(x.phase.outcome), AlreadyFinalized);
      Committed(w, State(x.phase))
    else if outcome == Definite(Completed)
            && (x.phase != Active || x.expiresAt <= system || w.engagements[job.engagement].authority.stopWork) then
      Committed(WithExecution(w, j, x.(phase := CancelRequested)), Conflict)
    else if outcome == Indefinite then Committed(WithExecution(w, j, x.(phase := Uncertain)), State(Uncertain))
    else Committed(Terminated(w, j, outcome.outcome, now), State(Ended(outcome.outcome)))
  }

  // ----- Evidence -----

  /** What an uploaded result claims to be about. `ref` is the case id inside the result, if given. */
  datatype Upload = Upload(payload: Payload, caseHash: Option<Digest>, ref: Option<int>)

  /** The spec a result is judged by: the one frozen at claim, else the stored case. */
  function AuthoritativeSpec(w: World, j: JobId): Option<CaseSpec>
    requires Known(w, j)
  {
    var job := w.jobs[j];
    var cases := w.engagements[job.engagement].cases;
    if job.snapshot.Some? then job.snapshot
    else if job.testCase.Some? && job.testCase.value in cases then Some(cases[job.testCase.value])
    else None
  }

  function StoreResult(w: World, j: JobId, u: Upload): Step
    requires Known(w, j)
  {
    var job := w.jobs[j];
    if j in w.receipts then
      :- Need(w.receipts[j] == u.payload.full || w.receipts[j] == u.payload.legacy, DifferentUpload);
      Committed(w, Stored(true))
    else
      var spec := AuthoritativeSpec(w, j);
      :- Need(job.snapshot.Some? && u.caseHash.Some? ==>
                u.caseHash.value == job.snapshot.value.hash, ResultCaseMismatch);
      :- Need(spec.Some? && u.ref.Some? ==> u.ref.value == spec.value.ref, ResultCaseMismatch);
      Committed(w.(receipts := w.receipts[j := u.payload.full],
                history := w.history.(evidence := w.history.evidence + multiset{j})), Stored(false))
  }

  function UploadResult(w: World, j: JobId, u: Upload): Step {
    var found := Known(w, j);
    :- Need(found, NotFound);
    :- Need(!Managed(w.jobs[j]), ManagedRequired);
    :- Need(w.jobs[j].tool == Gate, WrongTool);
    StoreResult(w, j, u)
  }
}
