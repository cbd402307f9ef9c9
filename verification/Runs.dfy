/** The invariant and the forward relation, carried over every event and every run. */
module Runs {
  import opened Wrappers
  import opened Records
  import opened JobSteps
  import opened ManagedSteps
  import opened Protocol
  import opened Preservation
  import opened ClaimPreservation
  import opened ManagedPreservation
  import opened Evolution

  lemma EmptyOk()
    ensures Inv(EMPTY)
  {
  }

  predicate EngagementEvent(ev: Event) {
    || ev.EvCreateEngagement? || ev.EvEdit? || ev.EvConfigureConcurrency? || ev.EvConfigureTargets?
    || ev.EvConfigureDuration?
    || ev.EvDeleteEngagement? || ev.EvEngageStopWork? || ev.EvReleaseStopWork?
  }

  predicate JobEvent(ev: Event) {
    ev.EvCreateJob? || ev.EvCreatePipeline? || ev.EvPoll? || ev.EvPatchJob? || ev.EvDeleteJob?
  }

  predicate AttemptEvent(ev: Event) {
    ev.EvLegacyClaim? || ev.EvLegacyRefresh? || ev.EvLegacyFinish? || ev.EvUpload?
  }

  lemma EngagementEventKeeps(w: World, ev: Event)
    requires Inv(w) && EngagementEvent(ev) && Transact(w, ev).Success?
    ensures Inv(Transact(w, ev).value.world)
  {
    hide Inv, CreateJob, CreatePipeline, Poll, PatchJob, DeleteJob, LegacyClaim, LegacyRefresh, LegacyFinish;
    hide UploadResult, Register, Revoke, ManagedClaim, CheckLive, Renew, Consume, Submit, Finish, ReportStop;
    match ev
    case EvCreateEngagement(e, owner, kind, status) => CreateEngagementKeeps(w, e, owner, kind, status);
    case EvEdit(e, edit) => EditKeeps(w, e, edit);
    case EvConfigureConcurrency(e, limit) => ConcurrencyKeeps(w, e, limit);
    case EvConfigureTargets(e, limit) => TargetsKeep(w, e, limit);
    case EvConfigureDuration(e, limit) => DurationKeeps(w, e, limit);
    case EvDeleteEngagement(e) => DeleteEngagementKeeps(w, e);
    case EvEngageStopWork(e) => StopWorkKeeps(w, e);
    case EvReleaseStopWork(e) => ReleaseKeeps(w, e);
    case _ =>
  }

  lemma JobEventKeeps(w: World, ev: Event)
    requires Inv(w) && JobEvent(ev) && Transact(w, ev).Success?
    ensures Inv(Transact(w, ev).value.world)
  {
    hide Inv, CreateEngagement, EditEngagement, ConfigureConcurrency, ConfigureTargets, ConfigureDuration;
    hide DeleteEngagement, EngageStopWork, ReleaseStopWork, LegacyClaim, LegacyRefresh, LegacyFinish, UploadResult;
    hide Register, Revoke, ManagedClaim, CheckLive, Renew, Consume, Submit, Finish, ReportStop;
    match ev
    case EvCreateJob(e, j, spec, parent) => AddKeeps(w, e, j, spec, parent);
    case EvCreatePipeline(e, stages) => PipelineKeeps(w, e, stages);
    case EvPoll(visible, now) => PollKeeps(w, visible, now);
    case EvPatchJob(j, status, now) => PatchKeeps(w, j, status, now);
    case EvDeleteJob(j) => DeleteJobKeeps(w, j);
    case _ =>
  }

  lemma AttemptEventKeeps(w: World, ev: Event)
    requires Inv(w) && AttemptEvent(ev) && Transact(w, ev).Success?
    ensures Inv(Transact(w, ev).value.world)
  {
    hide Inv, CreateEngagement, EditEngagement, ConfigureConcurrency, ConfigureTargets, ConfigureDuration;
    hide DeleteEngagement, EngageStopWork, ReleaseStopWork, CreateJob, CreatePipeline, Poll, PatchJob, DeleteJob;
    hide Register, Revoke, ManagedClaim, CheckLive, Renew, Consume, Submit, Finish, ReportStop;
    match ev
    case EvLegacyClaim(j, control, now, system) => LegacyClaimKeeps(w, j, control, now, system);
    case EvLegacyRefresh(j, holder, system, renewal) => RefreshKeeps(w, j, holder, system, renewal);
    case EvLegacyFinish(j, holder, outcome, system, now) => LegacyFinishKeeps(w, j, holder, outcome, system, now);
    case EvUpload(j, upload) => StoreKeeps(w, j, upload);
    case _ =>
  }

  lemma ManagedEventKeeps(w: World, ev: Event)
    requires Inv(w) && !EngagementEvent(ev) && !JobEvent(ev) && !AttemptEvent(ev) && Transact(w, ev).Success?
    ensures Inv(Transact(w, ev).value.world)
  {
    hide Inv, CreateEngagement, EditEngagement, ConfigureConcurrency, ConfigureTargets, ConfigureDuration;
    hide DeleteEngagement, EngageStopWork, ReleaseStopWork, CreateJob, CreatePipeline, Poll, PatchJob, DeleteJob;
    hide LegacyClaim, LegacyRefresh, LegacyFinish, UploadResult;
    match ev
    case EvObserve(now) => ClockKeeps(w, Some(now));
    case EvRegister(q) => RegisterKeeps(w, q);
    case EvRevoke(j, actor, now) => RevokeKeeps(w, j, actor, now);
    case EvClaim(q) => ManagedClaimKeeps(w, q);
    case EvCheckLive(q) => CheckLiveKeeps(w, q);
    case EvRenew(q) => RenewKeeps(w, q);
    case EvConsume(q, sha) => ConsumeKeeps(w, q, sha);
    case EvSubmit(q) => SubmitKeeps(w, q);
    case EvFinish(q) => FinishKeeps(w, q);
    case EvReportStop(q) => ReportStopKeeps(w, q);
    case _ =>
  }

  /** One transaction, committed or refused, keeps the invariant. */
  lemma NextKeeps(w: World, ev: Event)
    requires Inv(w)
    ensures Inv(Next(w, ev))
  {
    hide Inv, Transact;
    if Transact(w, ev).Success? {
      if EngagementEvent(ev) {
        EngagementEventKeeps(w, ev);
      } else if JobEvent(ev) {
        JobEventKeeps(w, ev);
      } else if AttemptEvent(ev) {
        AttemptEventKeeps(w, ev);
      } else {
        ManagedEventKeeps(w, ev);
      }
    }
  }

  lemma EngagementEventLater(w: World, ev: Event)
    requires Inv(w) && EngagementEvent(ev) && Transact(w, ev).Success?
    ensures Later(w, Transact(w, ev).value.world)
  {
    hide CreateEngagement, EditEngagement, ConfigureConcurrency, ConfigureTargets, ConfigureDuration;
    hide DeleteEngagement, EngageStopWork, ReleaseStopWork;
    hide Inv, Later, CreateJob, CreatePipeline, Poll, PatchJob, DeleteJob, LegacyClaim, LegacyRefresh, LegacyFinish;
    hide UploadResult, Register, Revoke, ManagedClaim, CheckLive, Renew, Consume, Submit, Finish, ReportStop;
    match ev
    case EvCreateEngagement(e, owner, kind, status) => EngagementLifeLater(w, e, owner, kind, status);
    case EvEdit(e, edit) => EditLater(w, e, edit);
    case EvConfigureConcurrency(e, limit) => ConcurrencyLater(w, e, limit);
    case EvConfigureTargets(e, limit) => TargetsLater(w, e, limit);
    case EvConfigureDuration(e, limit) => DurationLater(w, e, limit);
    case EvDeleteEngagement(e) => EngagementLifeLater(w, e, 0, "", "");
    case EvEngageStopWork(e) => StopWorkLater(w, e);
    case EvReleaseStopWork(e) => ReleaseLater(w, e);
    case _ =>
  }

  lemma JobEventLater(w: World, ev: Event)
    requires Inv(w) && JobEvent(ev) && Transact(w, ev).Success?
    ensures Later(w, Transact(w, ev).value.world)
  {
    hide Inv, Later, CreateEngagement, EditEngagement, ConfigureConcurrency, ConfigureTargets, ConfigureDuration;
    hide DeleteEngagement, EngageStopWork, ReleaseStopWork, LegacyClaim, LegacyRefresh, LegacyFinish, UploadResult;
    hide Register, Revoke, ManagedClaim, CheckLive, Renew, Consume, Submit, Finish, ReportStop;
    match ev
    case EvCreateJob(e, j, spec, parent) => AddLater(w, e, j, spec, parent);
    case EvCreatePipeline(e, stages) => PipelineLater(w, e, stages);
    case EvPoll(visible, now) => PollLater(w, visible, now);
    case EvPatchJob(j, status, now) => PatchLater(w, j, status, now);
    case EvDeleteJob(j) => DeleteJobLater(w, j);
    case _ =>
  }

  lemma AttemptEventLater(w: World, ev: Event)
    requires Inv(w) && AttemptEvent(ev) && Transact(w, ev).Success?
    ensures Later(w, Transact(w, ev).value.world)
  {
    hide Inv, Later, CreateEngagement, EditEngagement, ConfigureConcurrency, ConfigureTargets, ConfigureDuration;
    hide DeleteEngagement, EngageStopWork, ReleaseStopWork, CreateJob, CreatePipeline, Poll, PatchJob, DeleteJob;
    hide Register, Revoke, ManagedClaim, CheckLive, Renew, Consume, Submit, Finish, ReportStop;
    match ev
    case EvLegacyClaim(j, control, now, system) => LegacyClaimLater(w, j, control, now, system);
    case EvLegacyRefresh(j, holder, system, renewal) => RefreshLater(w, j, holder, system, renewal);
    case EvLegacyFinish(j, holder, outcome, system, now) => LegacyFinishLater(w, j, holder, outcome, system, now);
    case EvUpload(j, upload) => StoreLater(w, j, upload);
    case _ =>
  }

  lemma ManagedEventLater(w: World, ev: Event)
    requires Inv(w) && !EngagementEvent(ev) && !JobEvent(ev) && !AttemptEvent(ev) && Transact(w, ev).Success?
    ensures Later(w, Transact(w, ev).value.world)
  {
    hide Inv, Later, CreateEngagement, EditEngagement, ConfigureConcurrency, ConfigureTargets, ConfigureDuration;
    hide DeleteEngagement, EngageStopWork, ReleaseStopWork, CreateJob, CreatePipeline, Poll, PatchJob, DeleteJob;
    hide LegacyClaim, LegacyRefresh, LegacyFinish, UploadResult;
    match ev
    case EvObserve(now) => ClockLater(w, now);
    case EvRegister(q) => RegisterLater(w, q);
    case EvRevoke(j, actor, now) => RevokeLater(w, j, actor, now);
    case EvClaim(q) => ManagedClaimLater(w, q);
    case EvCheckLive(q) => ClockLater(w, q.clock.locked);
    case EvRenew(q) => RenewLater(w, q);
    case EvConsume(q, sha) => ConsumeLater(w, q, sha);
    case EvSubmit(q) => SubmitLater(w, q);
    case EvFinish(q) => FinishLater(w, q);
    case EvReportStop(q) => ReportStopLater(w, q);
    case _ =>
  }

  /** One transaction, committed or refused, moves forward. */
  lemma NextLater(w: World, ev: Event)
    requires Inv(w)
    ensures Later(w, Next(w, ev))
  {
    hide Inv, Later, Transact;
    if Transact(w, ev).Failure? {
      LaterReflexive(w);
    } else if EngagementEvent(ev) {
      EngagementEventLater(w, ev);
    } else if JobEvent(ev) {
      JobEventLater(w, ev);
    } else if AttemptEvent(ev) {
      AttemptEventLater(w, ev);
    } else {
      ManagedEventLater(w, ev);
    }
  }

  /** Running one list of events and then another is running both. */
  lemma {:induction false} RunSplit(w: World, a: seq<Event>, b: seq<Event>)
    ensures Run(w, a + b) == Run(Run(w, a), b)
  {
    hide Next;
    if b == [] {
      assert a + b == a;
    } else {
      var front := b[..|b| - 1];
      assert (a + b)[..|a + b| - 1] == a + front;
      RunSplit(w, a, front);
    }
  }

  /** Every store a run reaches from an invariant one is invariant, and later than where it started. */
  lemma {:induction false} RunInvariant(w: World, evs: seq<Event>)
    requires Inv(w)
    ensures Inv(Run(w, evs)) && Later(w, Run(w, evs))
  {
    hide Inv, Later, Next;
    if evs == [] {
      LaterReflexive(w);
    } else {
      var front := evs[..|evs| - 1];
      RunInvariant(w, front);
      NextKeeps(Run(w, front), evs[|evs| - 1]);
      NextLater(Run(w, front), evs[|evs| - 1]);
      InvNamed(w);
      LaterTransitive(w, Run(w, front), Run(w, evs));
    }
  }
}
