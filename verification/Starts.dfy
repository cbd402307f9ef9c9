/** How jobs come to run: what a claim needs, that nothing else starts one, and that the brake stops every start. */
module Starts {
  import opened Wrappers
  import opened Records
  import opened Budgets
  import opened AuthorityEdits
  import opened JobSteps
  import opened ManagedSteps
  import opened Protocol
  import opened Frames
  import opened ClaimPreservation
  import opened Evolution
  import opened Runs
  import opened Footprints
  import opened Guarantees
  import opened Admission
  import opened JobRules

  // ----- Claims outside managed permission -----

  /** The budgets have room for what is asked; a budget that is not set must not be asked for. */
  predicate LegacyBudgetsAllow(w: World, j: JobId, control: Option<Control>)
    requires Known(w, j)
  {
    var job, g := w.jobs[j], w.engagements[w.jobs[j].engagement];
    var limits := g.authority.limits;
    var binding := if control.Some? then control.value.binding else None;
    var seconds := if control.Some? then control.value.seconds else None;
    && (if limits.concurrency.None? then control.None? || !control.value.concurrency
        else control.Some? && control.value.concurrency
             && |ReservedJobs(w, job.engagement)| < limits.concurrency.value)
    && (if limits.targets.None? then binding.None?
        else
          && job.tool == Gate && job.testCase.Some? && job.testCase.value in g.cases
          && var spec := g.cases[job.testCase.value];
             && spec.origins.Some? && 1 <= |spec.origins.value| <= 100
             && binding == Some(TargetBinding(spec.hash, spec.origins.value))
             && g.targetsSpent + |spec.origins.value| <= limits.targets.value)
    && (if limits.duration.None? then seconds.None?
        else seconds.Some? && g.durationAllocated + seconds.value <= limits.duration.value)
  }

  /** A legacy claim commits exactly when the job is pending and outside managed permission, the brake is off, the
      case of a gate job is still stored, and the budgets allow it. */
  lemma LegacyClaimExactly(w: World, j: JobId, control: Option<Control>, now: Instant, system: Instant)
    ensures LegacyClaim(w, j, control, now, system).Success? <==>
            && Known(w, j)
            && var job, g := w.jobs[j], w.engagements[w.jobs[j].engagement];
               && !job.contractRequired && job.approval.None? && job.status == Pending && !g.authority.stopWork
               && (job.tool == Gate ==> job.testCase.Some? && job.testCase.value in g.cases)
               && LegacyBudgetsAllow(w, j, control)
  {
    hide ReservedJobs;
    if Known(w, j) {
      var job, g := w.jobs[j], w.engagements[w.jobs[j].engagement];
      CapacityExactly(w, job.engagement, control.Some? && control.value.concurrency);
    }
  }

  lemma LegacyClaimWrote(w: World, j: JobId, control: Option<Control>, now: Instant, system: Instant)
    requires LegacyClaim(w, j, control, now, system).Success?
    ensures Known(w, j) && ClaimSnapshot(w, j).Success?
    ensures var snapshot, v := ClaimSnapshot(w, j).value, LegacyClaim(w, j, control, now, system).value.world;
            exists t: nat, d: nat ::
              v == if control.None? then Started(w, j, snapshot, now, t, d)
                   else WithExecution(Started(w, j, snapshot, now, t, d), j, NewExecution(control.value, t, d, system))
  {
    hide CheckCapacity, ChargeTargets, AllocateDuration, Started, NewExecution, ClaimSnapshot, WithExecution;
  }

  /** What it writes on the job and its execution: the start it was given, the case as stored, and, for a
      controlled claim, a lease of ten seconds from its own sample. */
  lemma LegacyClaimRows(w: World, j: JobId, control: Option<Control>, now: Instant, system: Instant)
    requires LegacyClaim(w, j, control, now, system).Success?
    ensures Known(w, j)
    ensures var job, g := w.jobs[j], w.engagements[w.jobs[j].engagement];
            var v := LegacyClaim(w, j, control, now, system).value.world;
            && (job.tool == Gate ==> job.testCase.Some? && job.testCase.value in g.cases)
            && v.jobs == w.jobs[j := job.(status := Running, startedAt := Some(now), snapshot :=
                 if job.tool == Gate then Some(g.cases[job.testCase.value]) else None)]
            && v.engagements.Keys == w.engagements.Keys
            && (if control.None? then v.executions == w.executions
                else
                  && j in v.executions && v.executions == w.executions[j := v.executions[j]]
                  && var x := v.executions[j];
                     && x.holder == control.value.holder && x.expiresAt == system + 10 * SECOND && x.phase == Active
                     && x.reserved == control.value.concurrency)
  {
    LegacyClaimWrote(w, j, control, now, system);
    hide LegacyClaim;
  }

  // ----- How a job's row moves otherwise -----

  /** Outside claims a row stays; or ends, with its time; or goes back from running to pending; or, while pending, a
      gate job is put under an approval. So nothing becomes running. */
  predicate Moves(a: Job, b: Job) {
    || b == a
    || (b.status in {Done, Failed} && b.completedAt.Some? && b == a.(status := b.status, completedAt := b.completedAt))
    || (a.status == Running && b == a.(status := Pending))
    || (a.status == Pending && a.tool == Gate && b.approval.Some?
        && b == a.(approval := b.approval, contractRequired := true))
  }

  /** A row just made waits, unclaimed and under no approval; only a gate job can require a contract, and it names
      its case. */
  predicate Fresh(b: Job) {
    && b.status == Pending && b.approval.None? && b.snapshot.None? && b.startedAt.None? && b.completedAt.None?
    && (b.contractRequired ==> b.tool == Gate) && (b.tool == Gate ==> b.testCase.Some?)
  }

  /** What is gone held nothing: no reserved capacity, no charge. */
  predicate OnlyMoves(w: World, v: World) {
    && (forall j :: j in v.jobs ==> if j in w.jobs then Moves(w.jobs[j], v.jobs[j]) else Fresh(v.jobs[j]))
    && (forall j :: j in w.jobs && j !in v.jobs ==> !(j in w.executions && w.executions[j].reserved))
    && (forall e :: e in w.engagements && e !in v.engagements ==>
                      w.engagements[e].targetsSpent == 0 && w.engagements[e].durationAllocated == 0)
  }

  predicate Claims(ev: Event) {
    ev.EvLegacyClaim? || ev.EvClaim?
  }

  lemma EditMoves(w: World, e: EngagementId, edit: Edit)
    requires EditEngagement(w, e, edit).Success?
    ensures OnlyMoves(w, EditEngagement(w, e, edit).value.world)
  {
    hide Edited;
  }

  lemma ConcurrencyMoves(w: World, e: EngagementId, limit: Option<Limit>)
    requires ConfigureConcurrency(w, e, limit).Success?
    ensures OnlyMoves(w, ConfigureConcurrency(w, e, limit).value.world)
  {
    hide Idle, WithLimits;
  }

  lemma TargetsMoves(w: World, e: EngagementId, limit: Option<Limit>)
    requires ConfigureTargets(w, e, limit).Success?
    ensures OnlyMoves(w, ConfigureTargets(w, e, limit).value.world)
  {
    hide Idle, WithLimits;
  }

  lemma DurationMoves(w: World, e: EngagementId, limit: Option<Limit>)
    requires ConfigureDuration(w, e, limit).Success?
    ensures OnlyMoves(w, ConfigureDuration(w, e, limit).value.world)
  {
    hide Idle, WithLimits;
  }

  lemma DeletionMoves(w: World, e: EngagementId)
    requires DeleteEngagement(w, e).Success?
    ensures OnlyMoves(w, DeleteEngagement(w, e).value.world)
  {
    hide RunningJobs;
    var v := DeleteEngagement(w, e).value.world;
    forall j | j in w.jobs && j !in v.jobs ensures !(j in w.executions && w.executions[j].reserved) {
      assert j !in ReservedJobs(w, e);
    }
  }

  lemma BrakeMoves(w: World, e: EngagementId)
    ensures EngageStopWork(w, e).Success? ==> OnlyMoves(w, EngageStopWork(w, e).value.world)
    ensures ReleaseStopWork(w, e).Success? ==> OnlyMoves(w, ReleaseStopWork(w, e).value.world)
  {
  }

  lemma NewEngagementMoves(w: World, e: EngagementId, owner: UserId, kind: string, status: string)
    requires CreateEngagement(w, e, owner, kind, status).Success?
    ensures OnlyMoves(w, CreateEngagement(w, e, owner, kind, status).value.world)
  {
  }

  lemma EngagementMoves(w: World, ev: Event)
    requires EngagementEvent(ev) && Transact(w, ev).Success?
    ensures OnlyMoves(w, Transact(w, ev).value.world)
  {
    hide CreateEngagement, EditEngagement, ConfigureConcurrency, ConfigureTargets, ConfigureDuration, DeleteEngagement;
    hide EngageStopWork, ReleaseStopWork, OnlyMoves;
    hide CreateJob, CreatePipeline, Poll, PatchJob, DeleteJob, LegacyClaim, LegacyRefresh, LegacyFinish, UploadResult;
    hide Register, Revoke, ManagedClaim, CheckLive, Renew, Consume, Submit, Finish, ReportStop;
    match ev
    case EvEdit(e, edit) => EditMoves(w, e, edit);
    case EvConfigureConcurrency(e, limit) => ConcurrencyMoves(w, e, limit);
    case EvConfigureTargets(e, limit) => TargetsMoves(w, e, limit);
    case EvConfigureDuration(e, limit) => DurationMoves(w, e, limit);
    case EvDeleteEngagement(e) => DeletionMoves(w, e);
    case EvEngageStopWork(e) => BrakeMoves(w, e);
    case EvReleaseStopWork(e) => BrakeMoves(w, e);
    case EvCreateEngagement(e, owner, kind, status) => NewEngagementMoves(w, e, owner, kind, status);
  }

  /** What checking the stages of a pipeline has established. */
  predicate StagesFit(w: World, e: EngagementId, stages: seq<(JobId, JobSpec)>) {
    forall i :: 0 <= i < |stages| ==>
      && stages[i].0 !in w.jobs && !stages[i].1.contractRequired
      && (stages[i].1.tool == Gate ==> stages[i].1.testCase.Some?)
  }

  lemma StagesChecked(w: World, e: EngagementId, stages: seq<(JobId, JobSpec)>)
    requires e in w.engagements && CheckStages(w, e, stages).Pass?
    ensures StagesFit(w, e, stages)
  {
  }

  lemma {:induction false} ChainMoves(w: World, e: EngagementId, stages: seq<(JobId, JobSpec)>)
    requires StagesFit(w, e, stages)
    ensures OnlyMoves(w, Chained(w, e, stages))
  {
    if stages != [] { ChainMoves(w, e, stages[..|stages| - 1]); }
  }

  lemma CreationMoves(w: World, e: EngagementId, j: JobId, spec: JobSpec, parent: Option<JobId>)
    requires CreateJob(w, e, j, spec, parent).Success?
    ensures OnlyMoves(w, CreateJob(w, e, j, spec, parent).value.world)
  {
  }

  lemma PollMoves(w: World, visible: set<EngagementId>, now: Instant)
    ensures OnlyMoves(w, Poll(w, visible, now))
  {
    hide PollFails;
  }

  lemma UpdateMoves(w: World, j: JobId, status: Status, now: Instant)
    requires PatchJob(w, j, status, now).Success?
    ensures OnlyMoves(w, PatchJob(w, j, status, now).value.world)
  {
    hide OnlyMoves;
    var v := PatchJob(w, j, status, now).value.world;
    UpdatedRow(w, j, status, now);
    OneRowMoves(w, v, j);
  }

  lemma UpdatedRow(w: World, j: JobId, status: Status, now: Instant)
    requires PatchJob(w, j, status, now).Success?
    ensures var v := PatchJob(w, j, status, now).value.world;
            && j in w.jobs && j in v.jobs && v.engagements == w.engagements
            && (v.jobs == w.jobs || v.jobs == w.jobs[j := v.jobs[j]]) && Moves(w.jobs[j], v.jobs[j])
  {
    UpdateExactly(w, j, status, now);
    hide PatchJob;
  }

  lemma OneRowMoves(w: World, v: World, j: JobId)
    requires j in w.jobs && j in v.jobs && v.engagements == w.engagements
    requires (v.jobs == w.jobs || v.jobs == w.jobs[j := v.jobs[j]]) && Moves(w.jobs[j], v.jobs[j])
    ensures OnlyMoves(w, v)
  {
  }

  lemma JobEventMoves(w: World, ev: Event)
    requires JobEvent(ev) && Transact(w, ev).Success?
    ensures OnlyMoves(w, Transact(w, ev).value.world)
  {
    hide Chained, CreateJob, CheckStages, StagesFit, Poll, PatchJob, LegacyClaim, LegacyRefresh, LegacyFinish;
    hide UploadResult;
    hide CreateEngagement, EditEngagement, ConfigureConcurrency, ConfigureTargets, ConfigureDuration;
    hide DeleteEngagement, EngageStopWork, ReleaseStopWork;
    hide Register, Revoke, ManagedClaim, CheckLive, Renew, Consume, Submit, Finish, ReportStop;
    match ev
    case EvCreateJob(e, j, spec, parent) => CreationMoves(w, e, j, spec, parent);
    case EvCreatePipeline(e, stages) =>
      StagesChecked(w, e, stages);
      ChainMoves(w, e, stages);
    case EvPoll(visible, now) => PollMoves(w, visible, now);
    case EvPatchJob(j, status, now) => UpdateMoves(w, j, status, now);
    case _ =>
  }

  lemma LegacyFinishMoves(w: World, j: JobId, holder: Holder, outcome: FinishOutcome, system: Instant,
                               now: Instant)
    requires LegacyFinish(w, j, holder, outcome, system, now).Success?
    ensures OnlyMoves(w, LegacyFinish(w, j, holder, outcome, system, now).value.world)
  {
    hide LegacyFinish;
    LegacyFinishShape(w, j, holder, outcome, system, now);
  }

  lemma AttemptMoves(w: World, ev: Event)
    requires AttemptEvent(ev) && !Claims(ev) && Transact(w, ev).Success?
    ensures OnlyMoves(w, Transact(w, ev).value.world)
  {
    hide CreateJob, CreatePipeline, Poll, PatchJob, DeleteJob, LegacyClaim, LegacyFinish, AuthoritativeSpec, Settled;
    hide CreateEngagement, EditEngagement, ConfigureConcurrency, ConfigureTargets, ConfigureDuration;
    hide DeleteEngagement, EngageStopWork, ReleaseStopWork;
    hide Register, Revoke, ManagedClaim, CheckLive, Renew, Consume, Submit, Finish, ReportStop;
    match ev
    case EvLegacyFinish(j, holder, outcome, system, now) => LegacyFinishMoves(w, j, holder, outcome, system, now);
    case _ =>
  }

  lemma RegistrationMoves(w: World, q: RegisterRequest)
    requires Register(w, q).Success?
    ensures OnlyMoves(w, Register(w, q).value.world)
  {
    hide Register, FitsJob, SignedFor;
    RegisterShape(w, q);
    RegistrationExactly(w, q);
  }

  lemma LiveMoves(w: World, q: LiveRequest, sha: Digest)
    ensures CheckLive(w, q).Success? ==> OnlyMoves(w, CheckLive(w, q).value.world)
    ensures Renew(w, q).Success? ==> OnlyMoves(w, Renew(w, q).value.world)
    ensures Consume(w, q, sha).Success? ==> OnlyMoves(w, Consume(w, q, sha).value.world)
  {
    hide CheckEnvelope, ClaimPermission, Ceiling, WholeSeconds;
  }

  lemma SubmitMoves(w: World, q: SubmitRequest)
    requires Submit(w, q).Success?
    ensures OnlyMoves(w, Submit(w, q).value.world)
  {
    hide Submit;
    SubmitFootprint(w, q);
  }

  lemma TerminationMoves(w: World, j: JobId, outcome: Outcome, at: Instant)
    requires j in w.jobs && j in w.executions
    ensures OnlyMoves(w, Terminated(w, j, outcome, at))
  {
  }

  lemma FinishMoves(w: World, q: FinishRequest)
    requires Finish(w, q).Success?
    ensures OnlyMoves(w, Finish(w, q).value.world)
  {
    hide OwnedConsumed, MayComplete, CheckCompletable, RetainedResult, Terminated;
    assert OwnedConsumed(w, q.owned).Pass?;
    OwnedRowsExist(w, q.owned);
    TerminationMoves(w, q.owned.job, q.outcome, q.finished);
    FinishJobs(w, q);
  }

  lemma FinishJobs(w: World, q: FinishRequest)
    requires Finish(w, q).Success? && q.owned.job in w.jobs && q.owned.job in w.executions
    ensures var v := Finish(w, q).value.world;
            v.jobs == w.jobs || v.jobs == Terminated(w, q.owned.job, q.outcome, q.finished).jobs
  {
    hide OwnedConsumed, MayComplete, CheckCompletable, RetainedResult, Terminated;
  }

  lemma StopMoves(w: World, q: StopRequest)
    requires ReportStop(w, q).Success?
    ensures OnlyMoves(w, ReportStop(w, q).value.world)
  {
    hide OwnedConsumed, RetainedResult, RetainedStop;
    assert OwnedConsumed(w, q.owned).Pass?;
    OwnedRowsExist(w, q.owned);
  }

  lemma ManagedMoves(w: World, ev: Event)
    requires !EngagementEvent(ev) && !JobEvent(ev) && !AttemptEvent(ev) && !Claims(ev) && Transact(w, ev).Success?
    ensures OnlyMoves(w, Transact(w, ev).value.world)
  {
    hide CreateEngagement, EditEngagement, ConfigureConcurrency, ConfigureTargets, ConfigureDuration;
    hide DeleteEngagement, EngageStopWork, ReleaseStopWork, CreateJob, CreatePipeline, Poll, PatchJob, DeleteJob;
    hide LegacyClaim, LegacyRefresh, LegacyFinish, UploadResult;
    hide Register, ManagedClaim, CheckLive, Renew, Consume, Submit, Finish, ReportStop;
    match ev
    case EvRegister(q) => RegistrationMoves(w, q);
    case EvCheckLive(q) => LiveMoves(w, q, 0);
    case EvRenew(q) => LiveMoves(w, q, 0);
    case EvConsume(q, sha) => LiveMoves(w, q, sha);
    case EvSubmit(q) => SubmitMoves(w, q);
    case EvFinish(q) => FinishMoves(w, q);
    case EvReportStop(q) => StopMoves(w, q);
    case _ =>
  }

  /** Every event that is not a claim moves job rows in those ways alone: so only a claim starts a job. */
  lemma OnlyClaimsStart(w: World, ev: Event)
    requires !Claims(ev)
    ensures OnlyMoves(w, Next(w, ev))
  {
    hide Transact, OnlyMoves;
    if Transact(w, ev).Failure? {
      assert OnlyMoves(w, w) by { SameMoves(w); }
    } else if EngagementEvent(ev) {
      EngagementMoves(w, ev);
    } else if JobEvent(ev) {
      JobEventMoves(w, ev);
    } else if AttemptEvent(ev) {
      AttemptMoves(w, ev);
    } else {
      ManagedMoves(w, ev);
    }
  }

  lemma SameMoves(w: World)
    ensures OnlyMoves(w, w)
  {
  }

  // ----- Under the brake -----

  predicate BrakeOn(w: World, e: EngagementId) {
    e in w.engagements && w.engagements[e].authority.stopWork
  }

  /** While the brake is on, no claim of either kind commits for a job of the engagement. */
  lemma BrakedClaimsFail(w: World, j: JobId, control: Option<Control>, now: Instant, system: Instant, q: ClaimRequest)
    requires j in w.jobs && BrakeOn(w, w.jobs[j].engagement) && q.job == j
    ensures LegacyClaim(w, j, control, now, system).Failure? && ManagedClaim(w, q).Failure?
  {
    hide LegacyClaim, ManagedClaim, BudgetsAllow, LegacyBudgetsAllow, MayIssue, SignedFor;
    LegacyClaimExactly(w, j, control, now, system);
    ManagedClaimExactly(w, q);
  }

  /** A claim starts its own job, which was pending, and no other. */
  lemma ClaimStartsOnlyItsJob(w: World, ev: Event)
    requires Claims(ev) && Transact(w, ev).Success?
    ensures var j, v := if ev.EvClaim? then ev.claim.job else ev.j, Next(w, ev);
            && j in w.jobs && w.jobs[j].status == Pending && !BrakeOn(w, w.jobs[j].engagement)
            && j in v.jobs && v.jobs == w.jobs[j := v.jobs[j]]
            && v.jobs[j] == w.jobs[j].(status := Running, startedAt := v.jobs[j].startedAt,
                                       snapshot := v.jobs[j].snapshot)
            && v.jobs[j].startedAt.Some? && (v.jobs[j].tool == Gate ==> v.jobs[j].snapshot.Some?)
            && (Managed(w.jobs[j]) <==> ev.EvClaim?) && v.engagements.Keys == w.engagements.Keys
            && (ev.EvClaim? ==> j in v.contracts && j in v.executions)
  {
    ClaimSteps(w, ev);
    hide Transact, LegacyClaim, ManagedClaim;
    match ev
    case EvLegacyClaim(j, control, now, system) =>
      LegacyClaimExactly(w, j, control, now, system);
      LegacyClaimRows(w, j, control, now, system);
    case EvClaim(q) =>
      ManagedClaimWrote(w, q);
      ManagedClaimShape(w, q);
      ManagedClaimIsManaged(w, q);
  }

  lemma ClaimSteps(w: World, ev: Event)
    ensures ev.EvClaim? ==> Transact(w, ev) == ManagedClaim(w, ev.claim)
    ensures ev.EvLegacyClaim? ==> Transact(w, ev) == LegacyClaim(w, ev.j, ev.control, ev.now, ev.system)
  {
    hide CreateJob, CreatePipeline, Poll, PatchJob, DeleteJob, LegacyClaim, LegacyRefresh, LegacyFinish, UploadResult;
    hide CreateEngagement, EditEngagement, ConfigureConcurrency, ConfigureTargets, ConfigureDuration;
    hide DeleteEngagement, EngageStopWork, ReleaseStopWork;
    hide Register, Revoke, ManagedClaim, CheckLive, Renew, Consume, Submit, Finish, ReportStop;
  }

  lemma ManagedClaimIsManaged(w: World, q: ClaimRequest)
    requires ManagedClaim(w, q).Success?
    ensures q.job in w.jobs && Managed(w.jobs[q.job])
  {
    ManagedClaimWrote(w, q);
    hide ManagedClaim;
  }

  lemma NextUnderBrake(w: World, ev: Event, e: EngagementId)
    requires BrakeOn(w, e)
    ensures RunningJobs(Next(w, ev), e) <= RunningJobs(w, e)
  {
    hide Transact;
    if Claims(ev) {
      if Transact(w, ev).Success? { ClaimStartsOnlyItsJob(w, ev); }
    } else {
      OnlyClaimsStart(w, ev);
      forall j | j in RunningJobs(Next(w, ev), e) ensures j in RunningJobs(w, e) {
        assert j in Next(w, ev).jobs && Next(w, ev).jobs[j].status == Running;
      }
    }
  }

  /** Over any run that keeps the brake on, nothing of the engagement starts, in either protocol. */
  lemma {:induction false} NothingStartsUnderBrake(w: World, evs: seq<Event>, e: EngagementId)
    requires forall k :: 0 <= k < |evs| ==> BrakeOn(Run(w, evs[..k]), e)
    ensures RunningJobs(Run(w, evs), e) <= RunningJobs(w, e)
  {
    hide Next, BrakeOn, RunningJobs;
    if evs != [] {
      var n := |evs| - 1;
      var front := evs[..n];
      forall k | 0 <= k < n ensures BrakeOn(Run(w, front[..k]), e) { assert front[..k] == evs[..k]; }
      NothingStartsUnderBrake(w, front, e);
      NextUnderBrake(Run(w, front), evs[n], e);
    }
  }

  // ----- What every job row says, in every reachable store -----

  /** Ended exactly when it has an end time; running only once started; a contract only for a gate job; an approval
      only with a contract; a gate job names its case, and once started has it frozen. */
  predicate RowSound(job: Job) {
    && (job.completedAt.Some? <==> job.status in {Done, Failed})
    && (job.status == Running ==> job.startedAt.Some?)
    && (job.contractRequired ==> job.tool == Gate) && (job.approval.Some? ==> job.contractRequired)
    && (job.tool == Gate ==> job.testCase.Some? && (job.startedAt.Some? ==> job.snapshot.Some?))
  }

  predicate RowsSound(w: World) {
    forall j :: j in w.jobs ==> RowSound(w.jobs[j])
  }

  lemma NextRowsSound(w: World, ev: Event)
    requires RowsSound(w)
    ensures RowsSound(Next(w, ev))
  {
    hide Transact, Claims;
    var v := Next(w, ev);
    if !Claims(ev) {
      OnlyClaimsStart(w, ev);
    } else if Transact(w, ev).Success? {
      ClaimStartsOnlyItsJob(w, ev);
    }
    forall j | j in v.jobs ensures RowSound(v.jobs[j]) {
      if j in w.jobs { assert RowSound(w.jobs[j]); }
    }
  }

  lemma {:induction false} RunRowsSound(evs: seq<Event>)
    ensures RowsSound(Run(EMPTY, evs))
  {
    hide Next;
    if evs != [] {
      RunRowsSound(evs[..|evs| - 1]);
      NextRowsSound(Run(EMPTY, evs[..|evs| - 1]), evs[|evs| - 1]);
    }
  }

  /** So it is in every reachable store. */
  lemma ReachableRowsSound(w: World, j: JobId)
    requires Reachable(w) && j in w.jobs
    ensures RowSound(w.jobs[j])
  {
    var evs := SomeRun(w);
    hide Reachable, Leads, Run;
    RunRowsSound(evs);
  }

  // ----- A job under permission runs only under a contract -----

  /** A running job that asks for managed permission has its execution and its contract. */
  ghost predicate RunsContracted(w: World) {
    forall j :: j in w.jobs && w.jobs[j].status == Running && Managed(w.jobs[j]) ==>
                  j in w.executions && j in w.contracts
  }

  lemma NextRunsContracted(w: World, ev: Event)
    requires Inv(w) && RunsContracted(w)
    ensures RunsContracted(Next(w, ev))
  {
    hide Transact, Inv, Claims;
    NextLater(w, ev);
    var v := Next(w, ev);
    forall j | j in v.jobs && v.jobs[j].status == Running && Managed(v.jobs[j])
      ensures j in v.executions && j in v.contracts
    {
      assert JobLater(w, v, j) && ContractLater(w, v, j);
      if Claims(ev) && Transact(w, ev).Success? {
        ClaimStartsOnlyItsJob(w, ev);
      } else if !Claims(ev) {
        OnlyClaimsStart(w, ev);
      }
    }
  }

  lemma {:induction false} RunStaysContracted(evs: seq<Event>)
    ensures RunsContracted(Run(EMPTY, evs))
  {
    hide Next, RunsContracted;
    if evs == [] {
      assert RunsContracted(EMPTY) by { NoneRuns(); }
    } else {
      var front := evs[..|evs| - 1];
      RunStaysContracted(front);
      EmptyOk();
      RunInvariant(EMPTY, front);
      NextRunsContracted(Run(EMPTY, front), evs[|evs| - 1]);
    }
  }

  lemma NoneRuns()
    ensures RunsContracted(EMPTY)
  {
  }

  /** In every reachable store a running job that asks for managed permission runs under a contract of its own
      approval: no claim, update or registration ever leaves one running without. */
  lemma ManagedRunsContracted(w: World, j: JobId)
    requires Reachable(w) && j in w.jobs && w.jobs[j].status == Running && Managed(w.jobs[j])
    ensures j in w.executions && j in w.contracts && w.jobs[j].approval == Some(w.contracts[j].approval)
  {
    var evs := SomeRun(w);
    RunStaysContracted(evs);
    ReachableInv(w);
    hide Reachable, Leads, Run;
    assert JobOk(w, j);
  }
}
