/** The control plane as a state machine: its events, its runs, and the invariant of every reachable store. */
module Protocol {
  import opened Wrappers
  import opened Records
  import opened Budgets
  import opened AuthorityEdits
  import opened JobSteps
  import opened ManagedSteps

  /** One database transaction. An operation of a managed adapter is an `Observe`, then its own
      transaction, then another `Observe` if that was refused; others may commit in between. */
  datatype Event =
    | EvCreateEngagement(e: EngagementId, owner: UserId, kind: string, engagementStatus: string)
    | EvEdit(e: EngagementId, edit: Edit)
    | EvConfigureConcurrency(e: EngagementId, limit: Option<Limit>)
    | EvConfigureTargets(e: EngagementId, limit: Option<Limit>)
    | EvConfigureDuration(e: EngagementId, limit: Option<Limit>)
    | EvDeleteEngagement(e: EngagementId)
    | EvEngageStopWork(e: EngagementId)
    | EvReleaseStopWork(e: EngagementId)
    | EvCreateJob(e: EngagementId, j: JobId, spec: JobSpec, parent: Option<JobId>)
    | EvCreatePipeline(e: EngagementId, stages: seq<(JobId, JobSpec)>)
    | EvPoll(visible: set<EngagementId>, now: Instant)
    | EvPatchJob(j: JobId, status: Status, now: Instant)
    | EvDeleteJob(j: JobId)
    | EvLegacyClaim(j: JobId, control: Option<Control>, now: Instant, system: Instant)
    | EvLegacyRefresh(j: JobId, holder: Holder, system: Instant, renewal: Instant)
    | EvLegacyFinish(j: JobId, holder: Holder, outcome: FinishOutcome, system: Instant, now: Instant)
    | EvUpload(j: JobId, upload: Upload)
    | EvObserve(now: Instant)
    | EvRegister(register: RegisterRequest)
    | EvRevoke(j: JobId, actor: UserId, now: Instant)
    | EvClaim(claim: ClaimRequest)
    | EvCheckLive(live: LiveRequest)
    | EvRenew(live: LiveRequest)
    | EvConsume(live: LiveRequest, sha: Digest)
    | EvSubmit(submit: SubmitRequest)
    | EvFinish(finish: FinishRequest)
    | EvReportStop(stop: StopRequest)

  function Transact(w: World, ev: Event): Step {
    match ev
    case EvCreateEngagement(e, owner, kind, status) => CreateEngagement(w, e, owner, kind, status)
    case EvEdit(e, edit) => EditEngagement(w, e, edit)
    case EvConfigureConcurrency(e, limit) => ConfigureConcurrency(w, e, limit)
    case EvConfigureTargets(e, limit) => ConfigureTargets(w, e, limit)
    case EvConfigureDuration(e, limit) => ConfigureDuration(w, e, limit)
    case EvDeleteEngagement(e) => DeleteEngagement(w, e)
    case EvEngageStopWork(e) => EngageStopWork(w, e)
    case EvReleaseStopWork(e) => ReleaseStopWork(w, e)
    case EvCreateJob(e, j, spec, parent) => CreateJob(w, e, j, spec, parent)
    case EvCreatePipeline(e, stages) => CreatePipeline(w, e, stages)
    case EvPoll(visible, now) => Committed(Poll(w, visible, now), Plain)
    case EvPatchJob(j, status, now) => PatchJob(w, j, status, now)
    case EvDeleteJob(j) => DeleteJob(w, j)
    case EvLegacyClaim(j, control, now, system) => LegacyClaim(w, j, control, now, system)
    case EvLegacyRefresh(j, holder, system, renewal) => LegacyRefresh(w, j, holder, system, renewal)
    case EvLegacyFinish(j, holder, outcome, system, now) => LegacyFinish(w, j, holder, outcome, system, now)
    case EvUpload(j, upload) => UploadResult(w, j, upload)
    case EvObserve(now) => ObserveClock(w, now)
    case EvRegister(q) => Register(w, q)
    case EvRevoke(j, actor, now) => Revoke(w, j, actor, now)
    case EvClaim(q) => ManagedClaim(w, q)
    case EvCheckLive(q) => CheckLive(w, q)
    case EvRenew(q) => Renew(w, q)
    case EvConsume(q, sha) => Consume(w, q, sha)
    case EvSubmit(q) => Submit(w, q)
    case EvFinish(q) => Finish(w, q)
    case EvReportStop(q) => ReportStop(w, q)
  }

  /** A refused transaction is rolled back whole. */
  function Next(w: World, ev: Event): World {
    var r := Transact(w, ev);
    if r.Success? then r.value.world else w
  }

  function Run(w: World, evs: seq<Event>): World {
    if evs == [] then w else Next(Run(w, evs[..|evs| - 1]), evs[|evs| - 1])
  }

  const EMPTY := World(map[], map[], map[], map[], map[], map[], map[], map[], None, History({}, {}, [], multiset{}))

  // ----- The invariant, row by row -----

  function LimitsOf(w: World, j: JobId): Limits
    requires Known(w, j)
  {
    w.engagements[w.jobs[j].engagement].authority.limits
  }

  predicate EngagementOk(w: World, e: EngagementId)
    requires e in w.engagements
  {
    var g := w.engagements[e];
    var limits := g.authority.limits;
    && e in w.history.engagements
    && g.targetsSpent == SumTargets(w.history.charges, e)
    && g.durationAllocated == SumSeconds(w.history.charges, e)
    && (if limits.targets.Some? then g.targetsSpent <= limits.targets.value else g.targetsSpent == 0)
    && (if limits.duration.Some? then g.durationAllocated <= limits.duration.value else g.durationAllocated == 0)
    && (if limits.concurrency.Some? then |ReservedJobs(w, e)| <= limits.concurrency.value else ReservedJobs(w, e) == {})
  }

  predicate JobOk(w: World, j: JobId)
    requires j in w.jobs
  {
    var job := w.jobs[j];
    && j in w.history.jobs
    && job.engagement in w.engagements
    && (job.approval.Some? ==>
          && job.contractRequired && job.approval.value in w.approvals
          && w.approvals[job.approval.value].job == j && w.approvals[job.approval.value].engagement == job.engagement)
    && (job.status == Running && LimitsOf(w, j).concurrency.Some? ==> j in w.executions && w.executions[j].reserved)
    && (j in w.contracts ==> j in w.executions && job.approval == Some(w.contracts[j].approval) && job.tool == Gate
                             && job.snapshot.Some? && job.startedAt.Some?
                             && job.snapshot.value.hash == w.approvals[job.approval.value].caseHash)
    && (j in w.receipts <==> j in w.history.evidence)
  }

  predicate ExecutionOk(w: World, j: JobId)
    requires j in w.executions
  {
    var x := w.executions[j];
    && Known(w, j)
    && w.jobs[j].status == (if x.phase.Ended? then FinishedStatus(x.phase.outcome) else Running)
    && (x.reserved ==> !x.phase.Ended? && LimitsOf(w, j).concurrency.Some?)
    && (w.engagements[w.jobs[j].engagement].authority.stopWork ==> x.phase != Active)
    && (Managed(w.jobs[j]) ==> j in w.contracts)
    && (j in w.contracts ==> x.seconds > 0 && (x.phase.Ended? || x.reserved))
    && (j in w.contracts && x.phase.Ended? ==> EndedByReceipt(w, w.contracts[j].id, x.phase.outcome))
  }

  /** Some terminal receipt of this contract says it ended this way. */
  predicate EndedByReceipt(w: World, c: ContractId, outcome: Outcome) {
    || (c in w.results && w.results[c].outcome == Some(outcome))
    || (c in w.stops && w.stops[c].outcome == outcome)
  }

  predicate ContractOk(w: World, j: JobId)
    requires j in w.contracts
  {
    var c := w.contracts[j];
    && j in w.history.jobs
    && c.approval in w.approvals && w.approvals[c.approval].job == j
    && c.ordinal == 1 && c.fence == 1
  }

  predicate ContractIdsDistinct(w: World) {
    forall j, k :: j in w.contracts && k in w.contracts && w.contracts[j].id == w.contracts[k].id ==> j == k
  }

  predicate ApprovalOk(w: World, id: ApprovalId)
    requires id in w.approvals
  {
    var a := w.approvals[id];
    && a.envelope.id == id && a.owner == a.envelope.approver && a.job in w.history.jobs
    && a.engagement in w.history.engagements
    && a.envelope.context.job == a.job && a.envelope.context.engagement == a.engagement
    && a.envelope.context.caseHash == a.caseHash
    && a.issued == (if a.job in w.contracts && w.contracts[a.job].approval == id then 1 else 0)
    && a.issued <= a.envelope.context.maxExecutions
    && (a.engagement in w.engagements ==> RevisionStandsFor(w.engagements[a.engagement], a.envelope.context))
  }

  /** A signed revision is never ahead of the engagement, and while it is current so are its facts. */
  predicate RevisionStandsFor(g: Engagement, context: Context) {
    && context.revision <= g.revision
    && (context.revision == g.revision ==> context.authority == g.authority)
  }

  predicate ContractNamed(w: World, j: JobId, b: Binding) {
    && j in w.contracts && w.contracts[j].consumed
    && b == Binding(w.contracts[j].id, w.contracts[j].attempt, w.contracts[j].fence, w.contracts[j].sha)
  }

  predicate ResultOk(w: World, c: ContractId)
    requires c in w.results
  {
    var row := w.results[c];
    && row.binding.contract == c && ContractNamed(w, row.job, row.binding)
    && row.job in w.history.evidence
    && row.outcome.Some? == row.finishedAt.Some?
    && (row.outcome == Some(Completed) ==> !row.preflightFailed)
    && (row.outcome.Some? ==> c !in w.stops)
    && (row.outcome.Some? && row.job in w.jobs ==>
          row.job in w.executions && w.executions[row.job].phase == Ended(row.outcome.value))
  }

  predicate StopOk(w: World, c: ContractId)
    requires c in w.stops
  {
    var row := w.stops[c];
    && row.binding.contract == c && ContractNamed(w, row.job, row.binding)
    && row.outcome == CauseOutcome(row.cause)
    && (row.job in w.jobs ==> row.job in w.executions && w.executions[row.job].phase == Ended(row.outcome))
  }

  predicate HistoryOk(w: World) {
    var h := w.history;
    && (forall j :: j in h.evidence ==> h.evidence[j] == 1 && j in h.jobs)
    && (forall i :: 0 <= i < |h.charges| ==> h.charges[i].engagement in h.engagements)
  }

  ghost predicate RowsOk(w: World) {
    && (forall j {:trigger JobOk(w, j)} :: j in w.jobs ==> JobOk(w, j))
    && (forall j {:trigger ExecutionOk(w, j)} :: j in w.executions ==> ExecutionOk(w, j))
    && (forall j :: j in w.receipts ==> j in w.jobs)
    && (forall j {:trigger ContractOk(w, j)} :: j in w.contracts ==> ContractOk(w, j))
    && (forall a {:trigger ApprovalOk(w, a)} :: a in w.approvals ==> ApprovalOk(w, a))
    && (forall c {:trigger ResultOk(w, c)} :: c in w.results ==> ResultOk(w, c))
    && (forall c {:trigger StopOk(w, c)} :: c in w.stops ==> StopOk(w, c))
    && ContractIdsDistinct(w)
  }

  ghost predicate AccountsOk(w: World) {
    forall e {:trigger EngagementOk(w, e)} :: e in w.engagements ==> EngagementOk(w, e)
  }

  /** What every reachable store satisfies. */
  ghost predicate Inv(w: World) {
    RowsOk(w) && AccountsOk(w) && HistoryOk(w)
  }
}
