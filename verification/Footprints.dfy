/** What each event leaves alone: which rows can appear, and whose executions can change. */
module Footprints {
  import opened Wrappers
  import opened Records
  import opened Budgets
  import opened AuthorityEdits
  import opened JobSteps
  import opened ManagedSteps
  import opened Protocol
  import opened Frames
  import opened ClaimPreservation
  import opened Runs

  /** No job appears, no identifier is used, and every result is as it was. */
  predicate Calm(w: World, v: World) {
    v.jobs.Keys <= w.jobs.Keys && v.history.jobs == w.history.jobs && v.results == w.results
  }

  /** Nor is any contract issued. */
  predicate Quiet(w: World, v: World) {
    Calm(w, v) && v.contracts.Keys == w.contracts.Keys
  }

  /** Nor does any execution change. */
  predicate Still(w: World, v: World) {
    Quiet(w, v) && v.executions == w.executions
  }

  predicate MakesJobs(ev: Event) {
    ev.EvCreateJob? || ev.EvCreatePipeline?
  }

  /** The events that can touch an execution. */
  predicate TouchesExecutions(ev: Event) {
    || ev.EvEngageStopWork? || ev.EvDeleteEngagement? || ev.EvPatchJob? || ev.EvDeleteJob? || ev.EvLegacyClaim?
    || ev.EvLegacyRefresh? || ev.EvLegacyFinish? || ev.EvClaim? || ev.EvRenew? || ev.EvFinish? || ev.EvReportStop?
  }

  // ----- Engagements -----

  lemma EditStill(w: World, e: EngagementId, edit: Edit)
    requires EditEngagement(w, e, edit).Success?
    ensures Still(w, EditEngagement(w, e, edit).value.world)
  {
    hide Edited;
  }

  lemma ConcurrencyStill(w: World, e: EngagementId, limit: Option<Limit>)
    requires ConfigureConcurrency(w, e, limit).Success?
    ensures Still(w, ConfigureConcurrency(w, e, limit).value.world)
  {
    hide Idle, WithLimits;
  }

  lemma TargetsStill(w: World, e: EngagementId, limit: Option<Limit>)
    requires ConfigureTargets(w, e, limit).Success?
    ensures Still(w, ConfigureTargets(w, e, limit).value.world)
  {
    hide Idle, WithLimits;
  }

  lemma DurationStill(w: World, e: EngagementId, limit: Option<Limit>)
    requires ConfigureDuration(w, e, limit).Success?
    ensures Still(w, ConfigureDuration(w, e, limit).value.world)
  {
    hide Idle, WithLimits;
  }

  lemma DeleteEngagementQuiet(w: World, e: EngagementId)
    requires DeleteEngagement(w, e).Success?
    ensures Quiet(w, DeleteEngagement(w, e).value.world)
  {
    hide Idle, ReservedJobs;
  }

  lemma EngagementFootprint(w: World, ev: Event)
    requires EngagementEvent(ev) && Transact(w, ev).Success?
    ensures Quiet(w, Transact(w, ev).value.world)
    ensures !TouchesExecutions(ev) ==> Still(w, Transact(w, ev).value.world)
  {
    hide EditEngagement, ConfigureConcurrency, ConfigureTargets, ConfigureDuration, DeleteEngagement;
    hide CreateJob, CreatePipeline, Poll, PatchJob, DeleteJob, LegacyClaim, LegacyRefresh, LegacyFinish, UploadResult;
    hide Register, Revoke, ManagedClaim, CheckLive, Renew, Consume, Submit, Finish, ReportStop;
    match ev
    case EvEdit(e, edit) => EditStill(w, e, edit);
    case EvConfigureConcurrency(e, limit) => ConcurrencyStill(w, e, limit);
    case EvConfigureTargets(e, limit) => TargetsStill(w, e, limit);
    case EvConfigureDuration(e, limit) => DurationStill(w, e, limit);
    case EvDeleteEngagement(e) => DeleteEngagementQuiet(w, e);
    case _ =>
  }

  // ----- Jobs -----

  lemma {:induction false} ChainedLeaves(w: World, e: EngagementId, stages: seq<(JobId, JobSpec)>)
    ensures Chained(w, e, stages).executions == w.executions && Chained(w, e, stages).results == w.results
    ensures Chained(w, e, stages).contracts == w.contracts
  {
    if stages != [] {
      ChainedLeaves(w, e, stages[..|stages| - 1]);
    }
  }

  lemma CreationLeaves(w: World, ev: Event)
    requires MakesJobs(ev) && Transact(w, ev).Success?
    ensures var v := Transact(w, ev).value.world;
            v.executions == w.executions && v.results == w.results && v.contracts == w.contracts
  {
    hide Chained, CaseResolved, PatchJob, DeleteJob, Poll, LegacyClaim, LegacyRefresh, LegacyFinish, UploadResult;
    hide CreateEngagement, EditEngagement, ConfigureConcurrency, ConfigureTargets, ConfigureDuration;
    hide DeleteEngagement, EngageStopWork, ReleaseStopWork;
    hide Register, Revoke, ManagedClaim, CheckLive, Renew, Consume, Submit, Finish, ReportStop;
    if ev.EvCreatePipeline? { ChainedLeaves(w, ev.e, ev.stages); }
  }

  lemma PollStill(w: World, visible: set<EngagementId>, now: Instant)
    ensures Still(w, Poll(w, visible, now))
  {
    hide PollFails;
  }

  lemma PatchQuiet(w: World, j: JobId, status: Status, now: Instant)
    requires PatchJob(w, j, status, now).Success?
    ensures Quiet(w, PatchJob(w, j, status, now).value.world)
  {
  }

  lemma JobFootprint(w: World, ev: Event)
    requires JobEvent(ev) && !MakesJobs(ev) && Transact(w, ev).Success?
    ensures Quiet(w, Transact(w, ev).value.world)
    ensures !TouchesExecutions(ev) ==> Still(w, Transact(w, ev).value.world)
  {
    hide CreateJob, CreatePipeline, Poll, PatchJob, LegacyClaim, LegacyRefresh, LegacyFinish, UploadResult;
    hide CreateEngagement, EditEngagement, ConfigureConcurrency, ConfigureTargets, ConfigureDuration;
    hide DeleteEngagement, EngageStopWork, ReleaseStopWork;
    hide Register, Revoke, ManagedClaim, CheckLive, Renew, Consume, Submit, Finish, ReportStop;
    match ev
    case EvPoll(visible, now) => PollStill(w, visible, now);
    case EvPatchJob(j, status, now) => PatchQuiet(w, j, status, now);
    case _ =>
  }

  // ----- Attempts outside managed permission -----

  lemma LegacyClaimQuiet(w: World, j: JobId, control: Option<Control>, now: Instant, system: Instant)
    requires LegacyClaim(w, j, control, now, system).Success?
    ensures Quiet(w, LegacyClaim(w, j, control, now, system).value.world)
  {
    hide ChargeTargets, AllocateDuration, CheckCapacity, ClaimSnapshot;
  }

  lemma LegacyFinishQuiet(w: World, j: JobId, holder: Holder, outcome: FinishOutcome, system: Instant, now: Instant)
    requires LegacyFinish(w, j, holder, outcome, system, now).Success?
    ensures Quiet(w, LegacyFinish(w, j, holder, outcome, system, now).value.world)
  {
    hide LegacyFinish;
    LegacyFinishShape(w, j, holder, outcome, system, now);
  }

  lemma RefreshQuiet(w: World, j: JobId, holder: Holder, system: Instant, renewal: Instant)
    requires LegacyRefresh(w, j, holder, system, renewal).Success?
    ensures Quiet(w, LegacyRefresh(w, j, holder, system, renewal).value.world)
  {
    hide Settled;
  }

  lemma UploadStill(w: World, j: JobId, u: Upload)
    requires UploadResult(w, j, u).Success?
    ensures Still(w, UploadResult(w, j, u).value.world)
  {
    hide AuthoritativeSpec;
  }

  lemma AttemptFootprint(w: World, ev: Event)
    requires AttemptEvent(ev) && Transact(w, ev).Success?
    ensures Quiet(w, Transact(w, ev).value.world)
    ensures !TouchesExecutions(ev) ==> Still(w, Transact(w, ev).value.world)
  {
    hide CreateJob, CreatePipeline, Poll, PatchJob, DeleteJob, LegacyClaim, LegacyRefresh, LegacyFinish, UploadResult;
    hide CreateEngagement, EditEngagement, ConfigureConcurrency, ConfigureTargets, ConfigureDuration;
    hide DeleteEngagement, EngageStopWork, ReleaseStopWork;
    hide Register, Revoke, ManagedClaim, CheckLive, Renew, Consume, Submit, Finish, ReportStop;
    match ev
    case EvLegacyClaim(j, control, now, system) => LegacyClaimQuiet(w, j, control, now, system);
    case EvLegacyRefresh(j, holder, system, renewal) => RefreshQuiet(w, j, holder, system, renewal);
    case EvLegacyFinish(j, holder, outcome, system, now) => LegacyFinishQuiet(w, j, holder, outcome, system, now);
    case EvUpload(j, u) => UploadStill(w, j, u);
  }

  // ----- The managed adapters -----

  lemma RegisterStill(w: World, q: RegisterRequest)
    requires Register(w, q).Success?
    ensures Still(w, Register(w, q).value.world)
  {
    hide Register, FitsJob;
    RegisterShape(w, q);
  }

  lemma ClaimCalm(w: World, q: ClaimRequest)
    requires ManagedClaim(w, q).Success?
    ensures Calm(w, ManagedClaim(w, q).value.world)
  {
    hide ManagedClaim;
    ManagedClaimShape(w, q);
  }

  lemma LiveStill(w: World, q: LiveRequest, sha: Digest)
    ensures CheckLive(w, q).Success? ==> Still(w, CheckLive(w, q).value.world)
    ensures Consume(w, q, sha).Success? ==> Still(w, Consume(w, q, sha).value.world)
  {
    hide CheckEnvelope, ClaimPermission;
  }

  lemma RenewQuiet(w: World, q: LiveRequest)
    requires Renew(w, q).Success?
    ensures Quiet(w, Renew(w, q).value.world)
  {
    hide CheckEnvelope, ClaimPermission, Ceiling, WholeSeconds;
  }

  lemma StopQuiet(w: World, q: StopRequest)
    requires ReportStop(w, q).Success?
    ensures Quiet(w, ReportStop(w, q).value.world)
  {
    hide OwnedConsumed, RetainedResult, RetainedStop;
    assert OwnedConsumed(w, q.owned).Pass?;
    OwnedRowsExist(w, q.owned);
  }

  lemma OwnedRowsExist(w: World, o: OwnedRequest)
    requires OwnedConsumed(w, o).Pass?
    ensures Known(w, o.job) && o.job in w.executions && o.job in w.contracts
    ensures w.jobs[o.job].approval.Some? && w.jobs[o.job].approval.value in w.approvals
  {
  }

  /** A submission adds at most one row, without an outcome. */
  lemma SubmitFootprint(w: World, q: SubmitRequest)
    requires Submit(w, q).Success?
    ensures var v := Submit(w, q).value.world;
            && v.jobs == w.jobs && v.history.jobs == w.history.jobs && v.executions == w.executions
            && v.contracts == w.contracts && v.engagements == w.engagements
            && forall c :: c in v.results && v.results[c].outcome.Some? ==>
                             c in w.results && v.results[c] == w.results[c]
  {
    hide OwnedConsumed, RetainedResult, AuthoritativeSpec;
    OwnedRowsExist(w, q.owned);
  }

  /** A completion changes at most the row it completes. */
  lemma FinishFootprint(w: World, q: FinishRequest)
    requires Finish(w, q).Success?
    ensures var v := Finish(w, q).value.world;
            && v.jobs.Keys == w.jobs.Keys && v.history.jobs == w.history.jobs && v.contracts == w.contracts
            && q.owned.binding.contract in w.results
            && (forall c :: c in v.results && c != q.owned.binding.contract ==>
                              c in w.results && v.results[c] == w.results[c])
            && (w.results[q.owned.binding.contract].outcome.Some? ==> v == w)
  {
    hide OwnedConsumed, MayComplete, CheckCompletable;
    OwnedRowsExist(w, q.owned);
  }

  lemma PermissionFootprint(w: World, ev: Event)
    requires Transact(w, ev).Success?
    requires ev.EvObserve? || ev.EvRegister? || ev.EvRevoke? || ev.EvCheckLive? || ev.EvConsume?
    ensures Still(w, Transact(w, ev).value.world)
  {
    hide CreateJob, CreatePipeline, Poll, PatchJob, DeleteJob, LegacyClaim, LegacyRefresh, LegacyFinish, UploadResult;
    hide CreateEngagement, EditEngagement, ConfigureConcurrency, ConfigureTargets, ConfigureDuration;
    hide DeleteEngagement, EngageStopWork, ReleaseStopWork;
    hide Register, ManagedClaim, CheckLive, Renew, Consume, Submit, Finish, ReportStop;
    match ev
    case EvRegister(q) => RegisterStill(w, q);
    case EvCheckLive(q) => LiveStill(w, q, 0);
    case EvConsume(q, sha) => LiveStill(w, q, sha);
    case _ =>
  }

  lemma ContractFootprint(w: World, ev: Event)
    requires Transact(w, ev).Success? && (ev.EvClaim? || ev.EvRenew? || ev.EvReportStop?)
    ensures Calm(w, Transact(w, ev).value.world)
    ensures !ev.EvClaim? ==> Quiet(w, Transact(w, ev).value.world)
  {
    hide CreateJob, CreatePipeline, Poll, PatchJob, DeleteJob, LegacyClaim, LegacyRefresh, LegacyFinish, UploadResult;
    hide CreateEngagement, EditEngagement, ConfigureConcurrency, ConfigureTargets, ConfigureDuration;
    hide DeleteEngagement, EngageStopWork, ReleaseStopWork;
    hide Register, Revoke, ManagedClaim, CheckLive, Renew, Consume, Submit, Finish, ReportStop;
    match ev
    case EvClaim(q) => ClaimCalm(w, q);
    case EvRenew(q) => RenewQuiet(w, q);
    case EvReportStop(q) => StopQuiet(w, q);
  }

  // ----- Every event -----

  /** Apart from the two that create jobs, no event adds one. */
  lemma NoNewJobs(w: World, ev: Event)
    requires !MakesJobs(ev)
    ensures Next(w, ev).jobs.Keys <= w.jobs.Keys && Next(w, ev).history.jobs == w.history.jobs
  {
    hide Transact;
    if Transact(w, ev).Success? {
      if EngagementEvent(ev) {
        EngagementFootprint(w, ev);
      } else if JobEvent(ev) {
        JobFootprint(w, ev);
      } else if AttemptEvent(ev) {
        AttemptFootprint(w, ev);
      } else if ev.EvSubmit? {
        ReceiptStep(w, ev);
        SubmitFootprint(w, ev.submit);
      } else if ev.EvFinish? {
        ReceiptStep(w, ev);
        FinishFootprint(w, ev.finish);
      } else if ev.EvClaim? || ev.EvRenew? || ev.EvReportStop? {
        ContractFootprint(w, ev);
      } else {
        PermissionFootprint(w, ev);
      }
    }
  }

  /** The events that write results or issue contracts, by their own names. */
  lemma ReceiptStep(w: World, ev: Event)
    ensures ev.EvClaim? ==> Transact(w, ev) == ManagedClaim(w, ev.claim)
    ensures ev.EvSubmit? ==> Transact(w, ev) == Submit(w, ev.submit)
    ensures ev.EvFinish? ==> Transact(w, ev) == Finish(w, ev.finish)
  {
    hide CreateJob, CreatePipeline, Poll, PatchJob, DeleteJob, LegacyClaim, LegacyRefresh, LegacyFinish, UploadResult;
    hide CreateEngagement, EditEngagement, ConfigureConcurrency, ConfigureTargets, ConfigureDuration;
    hide DeleteEngagement, EngageStopWork, ReleaseStopWork;
    hide Register, Revoke, ManagedClaim, CheckLive, Renew, Consume, Submit, Finish, ReportStop;
  }

  /** Only a completion gives a result an outcome. */
  lemma OutcomesKept(w: World, ev: Event)
    requires !ev.EvFinish?
    ensures forall c :: c in Next(w, ev).results && Next(w, ev).results[c].outcome.Some? ==>
                          c in w.results && Next(w, ev).results[c] == w.results[c]
  {
    hide Transact;
    if Transact(w, ev).Success? {
      if EngagementEvent(ev) {
        EngagementFootprint(w, ev);
      } else if MakesJobs(ev) {
        CreationLeaves(w, ev);
      } else if JobEvent(ev) {
        JobFootprint(w, ev);
      } else if AttemptEvent(ev) {
        AttemptFootprint(w, ev);
      } else if ev.EvSubmit? {
        ReceiptStep(w, ev);
        SubmitFootprint(w, ev.submit);
      } else if ev.EvClaim? || ev.EvRenew? || ev.EvReportStop? {
        ContractFootprint(w, ev);
      } else {
        PermissionFootprint(w, ev);
      }
    }
  }

  /** Only a managed claim issues a contract. */
  lemma ContractsKept(w: World, ev: Event)
    requires !ev.EvClaim?
    ensures Next(w, ev).contracts.Keys == w.contracts.Keys
  {
    hide Transact;
    if Transact(w, ev).Success? {
      if EngagementEvent(ev) {
        EngagementFootprint(w, ev);
      } else if MakesJobs(ev) {
        CreationLeaves(w, ev);
      } else if JobEvent(ev) {
        JobFootprint(w, ev);
      } else if AttemptEvent(ev) {
        AttemptFootprint(w, ev);
      } else if ev.EvSubmit? {
        ReceiptStep(w, ev);
        SubmitFootprint(w, ev.submit);
      } else if ev.EvFinish? {
        ReceiptStep(w, ev);
        FinishFootprint(w, ev.finish);
      } else if ev.EvRenew? || ev.EvReportStop? {
        ContractFootprint(w, ev);
      } else {
        PermissionFootprint(w, ev);
      }
    }
  }

  /** The events that leave every execution as it was. */
  lemma ExecutionsKept(w: World, ev: Event)
    requires !TouchesExecutions(ev)
    ensures Next(w, ev).executions == w.executions
  {
    hide Transact;
    if Transact(w, ev).Success? {
      if EngagementEvent(ev) {
        EngagementFootprint(w, ev);
      } else if MakesJobs(ev) {
        CreationLeaves(w, ev);
      } else if JobEvent(ev) {
        JobFootprint(w, ev);
      } else if AttemptEvent(ev) {
        AttemptFootprint(w, ev);
      } else if ev.EvSubmit? {
        ReceiptStep(w, ev);
        SubmitFootprint(w, ev.submit);
      } else {
        PermissionFootprint(w, ev);
      }
    }
  }
}
