/** Leases, ceilings and completion times over whole runs, and what the clock can and cannot promise. */
module Timing {
  import opened Wrappers
  import opened Records
  import opened Budgets
  import opened JobSteps
  import opened ManagedSteps
  import opened Protocol
  import opened Frames
  import opened ClaimPreservation
  import opened ManagedPreservation
  import opened Evolution
  import opened Runs
  import opened Footprints
  import opened Guarantees
  import opened Admission

  // ----- The operation's clock -----

  /** One sample: the later of the wall clock and the anchor plus the monotonic time elapsed. */
  function Now(anchor: Instant, wall: Instant, elapsed: int): Result<Instant, Reason> {
    var ordered := elapsed >= 0;
    :- Need(ordered, ClockRollback);
    Success(Max(wall, anchor + elapsed))
  }

  /** A sample is never before the anchor, and samples advance with elapsed time unless the wall clock fell back. */
  lemma SamplesAdvance(anchor: Instant, wall: Instant, elapsed: int, wall': Instant, elapsed': int)
    requires 0 <= elapsed <= elapsed'
    ensures Now(anchor, wall, elapsed).Success? && anchor <= Now(anchor, wall, elapsed).value
    ensures Now(anchor, wall', elapsed').value < Now(anchor, wall, elapsed).value
       <==> wall' < wall && anchor + elapsed' < wall
  {
  }

  // ----- Renewed leases -----

  /** The ceiling is the least of the approval's end, the testing window's end, every credential grant's
      end, and the start plus the smaller of the allocated and the approved duration. */
  lemma CeilingIsLeast(context: Context, startedAt: Instant, seconds: nat)
    ensures var c := Ceiling(context, startedAt, seconds);
            && c <= context.expiresAt && c <= context.testingEnd
            && c <= startedAt + SECOND * seconds && c <= startedAt + SECOND * context.maxDuration
            && (forall i :: 0 <= i < |context.grants| ==> c <= context.grants[i])
            && (|| c == context.expiresAt || c == context.testingEnd || c in context.grants
                || c == startedAt + SECOND * seconds || c == startedAt + SECOND * context.maxDuration)
  {
    EarliestIsEarliest(Min(Min(context.expiresAt, context.testingEnd),
                           startedAt + SECOND * Min(seconds, context.maxDuration)), context.grants);
  }

  /** The ceiling on an attempt never moves. */
  lemma CeilingFixed(w: World, v: World, j: JobId)
    requires Inv(w) && Inv(v) && Later(w, v) && HasCeiling(w, j) && j in w.contracts && j in v.jobs
    ensures HasCeiling(v, j) && LeaseCeiling(v, j) == LeaseCeiling(w, j)
  {
    assert JobLater(w, v, j) && JobOk(w, j);
    assert ApprovalLater(w, v, w.jobs[j].approval.value);
  }

  lemma RenewedRows(w: World, q: LiveRequest)
    requires Renew(w, q).Success?
    ensures var u := Renew(w, q).value.world;
            && HasCeiling(w, q.job) && HasCeiling(u, q.job) && q.job in u.contracts
            && u.executions[q.job].expiresAt <= LeaseCeiling(w, q.job) == LeaseCeiling(u, q.job)
  {
    RenewalBounded(w, q);
    hide ClaimPermission, CheckEnvelope, Ceiling, WholeSeconds;
  }

  lemma StaysUnderCeiling(u: World, v: World, j: JobId)
    requires Inv(u) && Inv(v) && Later(u, v) && HasCeiling(u, j) && j in u.contracts && j in v.jobs
    requires u.executions[j].expiresAt <= LeaseCeiling(u, j)
    ensures HasCeiling(v, j) && v.executions[j].expiresAt <= LeaseCeiling(v, j)
  {
    CeilingFixed(u, v, j);
    assert JobLater(u, v, j);
    hide Inv;
  }

  /** After one renewal, through any later run, the lease stays under every ceiling. */
  lemma RenewedStaysUnderCeiling(w: World, q: LiveRequest, v: World)
    requires Reachable(w) && Renew(w, q).Success? && Leads(Renew(w, q).value.world, v) && q.job in v.jobs
    ensures HasCeiling(v, q.job) && v.executions[q.job].expiresAt <= LeaseCeiling(v, q.job)
  {
    hide Reachable, Leads, Renew, Inv, Later, LeaseCeiling;
    ReachableInv(w);
    RenewedRows(w, q);
    RenewKeeps(w, q);
    LeadsLater(Renew(w, q).value.world, v);
    StaysUnderCeiling(Renew(w, q).value.world, v, q.job);
  }

  // ----- Ended leases -----

  /** Wherever this event would consult the lease of j, it has a sample at or after t. */
  predicate ConsultsAfter(ev: Event, j: JobId, t: Instant) {
    match ev
    case EvLegacyRefresh(i, _, system, _) => i == j ==> t <= system
    case EvLegacyFinish(i, _, _, system, _) => i == j ==> t <= system
    case EvRenew(q) => q.job == j ==> t <= Max(q.clock.instant, q.clock.instantSystem)
    case EvFinish(q) => q.owned.job == j ==> t <= Max(q.live, q.liveSystem) || t <= Max(q.final, q.finalSystem)
    case _ => true
  }

  /** The lease of j is where it was, and if j completed now it had completed before. */
  predicate LeaseUnmoved(w: World, v: World, j: JobId)
    requires j in w.executions
  {
    j in v.jobs ==>
      && j in v.executions && v.executions[j].expiresAt == w.executions[j].expiresAt
      && (v.executions[j].phase == Ended(Completed) ==> w.executions[j].phase == Ended(Completed))
  }

  lemma UnmovedWhenSame(w: World, v: World, j: JobId)
    requires j in w.executions && v.executions == w.executions
    ensures LeaseUnmoved(w, v, j)
  {
  }

  lemma BrakeUnmoved(w: World, e: EngagementId, j: JobId)
    requires j in w.executions && EngageStopWork(w, e).Success?
    ensures LeaseUnmoved(w, EngageStopWork(w, e).value.world, j)
  {
  }

  lemma DeletionUnmoved(w: World, e: EngagementId, j: JobId)
    requires j in w.executions && DeleteEngagement(w, e).Success?
    ensures LeaseUnmoved(w, DeleteEngagement(w, e).value.world, j)
  {
    hide Idle, ReservedJobs;
  }

  lemma UpdateUnmoved(w: World, i: JobId, status: Status, now: Instant, j: JobId)
    requires j in w.executions
    ensures PatchJob(w, i, status, now).Success? ==> LeaseUnmoved(w, PatchJob(w, i, status, now).value.world, j)
    ensures DeleteJob(w, i).Success? ==> LeaseUnmoved(w, DeleteJob(w, i).value.world, j)
  {
  }

  lemma LegacyClaimUnmoved(w: World, i: JobId, control: Option<Control>, now: Instant, system: Instant, j: JobId)
    requires Inv(w) && j in w.executions && LegacyClaim(w, i, control, now, system).Success?
    ensures LeaseUnmoved(w, LegacyClaim(w, i, control, now, system).value.world, j)
  {
    PendingHoldsNothing(w, i);
    hide Inv, ChargeTargets, AllocateDuration, CheckCapacity, ClaimSnapshot;
  }

  lemma LegacyFinishUnmoved(w: World, i: JobId, holder: Holder, outcome: FinishOutcome, system: Instant, now: Instant,
                            j: JobId)
    requires j in w.executions && LegacyFinish(w, i, holder, outcome, system, now).Success?
    requires i == j ==> w.executions[j].expiresAt <= system
    ensures LeaseUnmoved(w, LegacyFinish(w, i, holder, outcome, system, now).value.world, j)
  {
    hide LegacyFinish;
    LegacyFinishShape(w, i, holder, outcome, system, now);
  }

  lemma RefreshUnmoved(w: World, i: JobId, holder: Holder, system: Instant, renewal: Instant, j: JobId)
    requires j in w.executions && LegacyRefresh(w, i, holder, system, renewal).Success?
    requires i == j ==> w.executions[j].expiresAt <= system
    ensures LeaseUnmoved(w, LegacyRefresh(w, i, holder, system, renewal).value.world, j)
  {
  }

  lemma ManagedClaimUnmoved(w: World, q: ClaimRequest, j: JobId)
    requires Inv(w) && j in w.executions && ManagedClaim(w, q).Success?
    ensures LeaseUnmoved(w, ManagedClaim(w, q).value.world, j)
  {
    ManagedClaimShape(w, q);
    PendingHoldsNothing(w, q.job);
    hide Inv, ManagedClaim;
  }

  lemma RenewUnmoved(w: World, q: LiveRequest, j: JobId)
    requires j in w.executions && Renew(w, q).Success?
    requires q.job == j ==> w.executions[j].expiresAt <= Max(q.clock.instant, q.clock.instantSystem)
    ensures LeaseUnmoved(w, Renew(w, q).value.world, j)
  {
    RenewalBounded(w, q);
    assert q.job != j;
    hide CheckEnvelope, ClaimPermission, Ceiling, WholeSeconds;
  }

  lemma FinishUnmoved(w: World, q: FinishRequest, j: JobId)
    requires j in w.executions && Finish(w, q).Success?
    requires q.owned.job == j ==> w.executions[j].expiresAt <= Max(q.live, q.liveSystem)
                                  || w.executions[j].expiresAt <= Max(q.final, q.finalSystem)
    ensures LeaseUnmoved(w, Finish(w, q).value.world, j)
  {
    if q.outcome == Completed && w.results[q.owned.binding.contract].outcome.None? { CompletionChecked(w, q); }
    hide MayComplete, ClaimPermission, CheckCompletable, CheckEnvelope;
  }

  lemma StopUnmoved(w: World, q: StopRequest, j: JobId)
    requires j in w.executions && ReportStop(w, q).Success?
    ensures LeaseUnmoved(w, ReportStop(w, q).value.world, j)
  {
  }

  lemma AttemptUnmoved(w: World, ev: Event, j: JobId)
    requires Inv(w) && j in w.executions && Transact(w, ev).Success? && ConsultsAfter(ev, j, w.executions[j].expiresAt)
    requires ev.EvLegacyClaim? || ev.EvLegacyRefresh? || ev.EvLegacyFinish? || ev.EvClaim? || ev.EvRenew?
             || ev.EvFinish? || ev.EvReportStop?
    ensures LeaseUnmoved(w, Transact(w, ev).value.world, j)
  {
    hide Inv, LeaseUnmoved, LegacyClaim, LegacyFinish, LegacyRefresh, UploadResult, CreateJob, CreatePipeline, Poll;
    hide PatchJob, DeleteJob;
    hide CreateEngagement, EditEngagement, ConfigureConcurrency, ConfigureTargets, ConfigureDuration;
    hide DeleteEngagement, EngageStopWork, ReleaseStopWork;
    hide Register, Revoke, ManagedClaim, CheckLive, Renew, Consume, Submit, Finish, ReportStop;
    match ev
    case EvLegacyClaim(i, control, now, system) => LegacyClaimUnmoved(w, i, control, now, system, j);
    case EvLegacyRefresh(i, holder, system, renewal) => RefreshUnmoved(w, i, holder, system, renewal, j);
    case EvLegacyFinish(i, holder, outcome, system, now) => LegacyFinishUnmoved(w, i, holder, outcome, system, now, j);
    case EvClaim(q) => ManagedClaimUnmoved(w, q, j);
    case EvRenew(q) => RenewUnmoved(w, q, j);
    case EvFinish(q) => FinishUnmoved(w, q, j);
    case EvReportStop(q) => StopUnmoved(w, q, j);
  }

  lemma RowUnmoved(w: World, ev: Event, j: JobId)
    requires j in w.executions && Transact(w, ev).Success?
    requires ev.EvEngageStopWork? || ev.EvDeleteEngagement? || ev.EvPatchJob? || ev.EvDeleteJob?
    ensures LeaseUnmoved(w, Transact(w, ev).value.world, j)
  {
    hide LeaseUnmoved, LegacyClaim, LegacyFinish, LegacyRefresh, UploadResult, CreateJob, CreatePipeline, Poll;
    hide PatchJob, DeleteJob;
    hide CreateEngagement, EditEngagement, ConfigureConcurrency, ConfigureTargets, ConfigureDuration;
    hide DeleteEngagement, EngageStopWork, ReleaseStopWork;
    hide Register, Revoke, ManagedClaim, CheckLive, Renew, Consume, Submit, Finish, ReportStop;
    match ev
    case EvEngageStopWork(e) => BrakeUnmoved(w, e, j);
    case EvDeleteEngagement(e) => DeletionUnmoved(w, e, j);
    case EvPatchJob(i, status, now) => UpdateUnmoved(w, i, status, now, j);
    case EvDeleteJob(i) => UpdateUnmoved(w, i, Failed, 0, j);
  }

  lemma NextUnmoved(w: World, ev: Event, j: JobId)
    requires Inv(w) && j in w.executions && ConsultsAfter(ev, j, w.executions[j].expiresAt)
    ensures LeaseUnmoved(w, Next(w, ev), j)
  {
    hide Inv, LeaseUnmoved, Transact, ConsultsAfter;
    if Transact(w, ev).Failure? {
      UnmovedWhenSame(w, w, j);
    } else if !TouchesExecutions(ev) {
      ExecutionsKept(w, ev);
      UnmovedWhenSame(w, Next(w, ev), j);
    } else if ev.EvEngageStopWork? || ev.EvDeleteEngagement? || ev.EvPatchJob? || ev.EvDeleteJob? {
      RowUnmoved(w, ev, j);
    } else { AttemptUnmoved(w, ev, j); }
  }

  /** This event cannot move a lease of j that ended at t: it consults it too late, or changes nothing. */
  predicate TooLate(u: World, ev: Event, j: JobId, t: Instant) {
    ConsultsAfter(ev, j, t) || Next(u, ev) == u
  }

  lemma UnmovedStep(w: World, u: World, v: World, ev: Event, j: JobId)
    requires Inv(w) && Inv(u) && Later(w, u) && v == Next(u, ev) && j in w.executions && LeaseUnmoved(w, u, j)
    requires TooLate(u, ev, j, w.executions[j].expiresAt)
    ensures LeaseUnmoved(w, v, j)
  {
    hide Next, ConsultsAfter;
    assert j in w.jobs && j in u.history.jobs by { assert ExecutionOk(w, j) && JobOk(w, j); }
    if v != u {
      if j in u.jobs {
        NextUnmoved(u, ev, j);
      } else {
        NextLater(u, ev);
        assert JobLater(u, v, j);
      }
    }
  }

  lemma {:induction false} TooLateAllAlong(w: World, evs: seq<Event>, j: JobId)
    requires Inv(w) && j in w.executions
    requires forall i :: 0 <= i < |evs| ==> TooLate(Run(w, evs[..i]), evs[i], j, w.executions[j].expiresAt)
    ensures LeaseUnmoved(w, Run(w, evs), j)
  {
    hide Next, TooLate, Inv;
    if evs == [] {
      UnmovedWhenSame(w, w, j);
    } else {
      var n := |evs| - 1;
      var front := evs[..n];
      forall i | 0 <= i < |front| ensures TooLate(Run(w, front[..i]), front[i], j, w.executions[j].expiresAt) {
        assert front[..i] == evs[..i];
      }
      TooLateAllAlong(w, front, j);
      RunInvariant(w, front);
      UnmovedStep(w, Run(w, front), Run(w, evs), evs[n], j);
    }
  }

  /** Once every later sample that consults it is at or after the end of a lease, that lease is never
      revived and its execution, if it had not completed by then, never completes. */
  lemma ExpiredStaysExpired(w: World, evs: seq<Event>, j: JobId)
    requires Reachable(w) && j in w.executions
    requires forall i :: 0 <= i < |evs| ==> ConsultsAfter(evs[i], j, w.executions[j].expiresAt)
    ensures LeaseUnmoved(w, Run(w, evs), j)
  {
    hide Reachable, Leads, Next, Inv, ConsultsAfter, LeaseUnmoved;
    ReachableInv(w);
    forall i | 0 <= i < |evs| ensures TooLate(Run(w, evs[..i]), evs[i], j, w.executions[j].expiresAt) {}
    TooLateAllAlong(w, evs, j);
  }

  // ----- The clock row ends leases -----

  /** Within this operation the sample that consults the lease is not before the one recorded in the clock row. */
  predicate InOrder(ev: Event) {
    match ev
    case EvRenew(q) => q.clock.locked <= Max(q.clock.instant, q.clock.instantSystem)
    case EvFinish(q) => q.locked <= Max(q.final, q.finalSystem)
    case _ => true
  }

  lemma RenewRecords(u: World, q: LiveRequest)
    requires Renew(u, q).Success?
    ensures u.observed.Some? && u.observed.value <= q.clock.locked
  {
    hide CheckEnvelope, ClaimPermission, Ceiling, WholeSeconds;
  }

  lemma FinishRecords(u: World, q: FinishRequest)
    requires Finish(u, q).Success? && Finish(u, q).value.world != u
    ensures u.observed.Some? && u.observed.value <= q.locked
  {
    hide MayComplete, CheckCompletable, OwnedConsumed;
  }

  lemma LegacyRefused(u: World, j: JobId, holder: Holder, outcome: FinishOutcome, system: Instant, at: Instant)
    requires j in u.jobs ==> Managed(u.jobs[j])
    ensures LegacyRefresh(u, j, holder, system, at).Failure? && LegacyFinish(u, j, holder, outcome, system, at).Failure?
  {
  }

  lemma ClockForces(u: World, ev: Event, j: JobId, t: Instant)
    requires InOrder(ev) && u.observed.Some? && t <= u.observed.value && (j in u.jobs ==> Managed(u.jobs[j]))
    ensures TooLate(u, ev, j, t)
  {
    hide LegacyClaim, LegacyFinish, LegacyRefresh, UploadResult, CreateJob, CreatePipeline, Poll, PatchJob, DeleteJob;
    hide CreateEngagement, EditEngagement, ConfigureConcurrency, ConfigureTargets, ConfigureDuration;
    hide DeleteEngagement, EngageStopWork, ReleaseStopWork;
    hide Register, Revoke, ManagedClaim, CheckLive, Renew, Consume, Submit, Finish, ReportStop;
    match ev
    case EvLegacyRefresh(i, holder, system, renewal) =>
      if i == j { LegacyRefused(u, j, holder, Indefinite, system, renewal); }
    case EvLegacyFinish(i, holder, outcome, system, now) =>
      if i == j { LegacyRefused(u, j, holder, outcome, system, now); }
    case EvRenew(q) =>
      if Renew(u, q).Success? { RenewRecords(u, q); }
    case EvFinish(q) =>
      if Finish(u, q).Success? && Finish(u, q).value.world != u { FinishRecords(u, q); }
    case _ =>
  }

  lemma ContractStaysManaged(w: World, u: World, j: JobId)
    requires Inv(w) && Later(w, u) && j in w.executions && j in w.contracts
    ensures j in u.jobs ==> Managed(u.jobs[j])
  {
    assert ExecutionOk(w, j) && JobOk(w, j) && JobLater(w, u, j);
  }

  /** Once the clock row has reached the end of a contracted lease, then over any run in which each
      managed operation is in order within itself, the lease never moves again and its execution never
      newly completes: the persisted clock orders one operation after another by itself. */
  lemma LeaseEndsWithClock(w: World, evs: seq<Event>, j: JobId)
    requires Reachable(w) && j in w.executions && j in w.contracts
    requires w.observed.Some? && w.executions[j].expiresAt <= w.observed.value
    requires forall i :: 0 <= i < |evs| ==> InOrder(evs[i])
    ensures LeaseUnmoved(w, Run(w, evs), j)
  {
    hide Reachable, Leads, Next, Inv, InOrder, TooLate, LeaseUnmoved;
    ReachableInv(w);
    forall i | 0 <= i < |evs| ensures TooLate(Run(w, evs[..i]), evs[i], j, w.executions[j].expiresAt) {
      RunInvariant(w, evs[..i]);
      ContractStaysManaged(w, Run(w, evs[..i]), j);
      ClockForces(Run(w, evs[..i]), evs[i], j, w.executions[j].expiresAt);
    }
    TooLateAllAlong(w, evs, j);
  }

  // ----- Ended leases launch nothing -----

  /** The latest of the samples a launch compares with the lease. */
  function LaunchSample(q: LiveRequest): Instant {
    Max(q.clock.system, Max(q.clock.last, q.clock.lastSystem))
  }

  lemma LateLaunchFails(w: World, v: World, j: JobId, q: LiveRequest, sha: Digest)
    requires j in w.executions && LeaseUnmoved(w, v, j) && q.job == j
    ensures w.executions[j].expiresAt <= LaunchSample(q) ==> Consume(v, q, sha).Failure?
    ensures w.executions[j].expiresAt <= q.clock.system ==> CheckLive(v, q).Failure?
  {
    hide Consume, CheckLive, MayAct, SignedFor;
    LaunchExactly(v, q, sha);
    CheckExactly(v, q);
  }

  /** Once every later sample that consults it is at or after the end of a lease, a launch whose own samples reach
      that end never commits, and a check whose sample does never permits. */
  lemma ExpiredNeverLaunches(w: World, evs: seq<Event>, j: JobId, q: LiveRequest, sha: Digest)
    requires Reachable(w) && j in w.executions && q.job == j
    requires forall i :: 0 <= i < |evs| ==> ConsultsAfter(evs[i], j, w.executions[j].expiresAt)
    ensures w.executions[j].expiresAt <= LaunchSample(q) ==> Consume(Run(w, evs), q, sha).Failure?
    ensures w.executions[j].expiresAt <= q.clock.system ==> CheckLive(Run(w, evs), q).Failure?
  {
    hide Reachable, Leads, Next, Consume, CheckLive, ConsultsAfter, LeaseUnmoved;
    ExpiredStaysExpired(w, evs, j);
    LateLaunchFails(w, Run(w, evs), j, q, sha);
  }

  lemma LaunchRecords(v: World, q: LiveRequest, sha: Digest)
    ensures Consume(v, q, sha).Success? || CheckLive(v, q).Success? ==>
              v.observed.Some? && v.observed.value <= q.clock.locked
  {
    hide Consume, CheckLive, MayAct, SignedFor;
    LaunchExactly(v, q, sha);
    CheckExactly(v, q);
  }

  lemma ClockOnward(w: World, v: World)
    requires Later(w, v) && w.observed.Some?
    ensures v.observed.Some? && w.observed.value <= v.observed.value
  {
  }

  /** And once the clock row has reached that end, over any run of operations in order within themselves, no launch
      and no check in order within itself commits: its recorded sample is already past the end. */
  lemma ClockEndsLaunches(w: World, evs: seq<Event>, j: JobId, q: LiveRequest, sha: Digest)
    requires Reachable(w) && j in w.executions && j in w.contracts && q.job == j
    requires w.observed.Some? && w.executions[j].expiresAt <= w.observed.value
    requires forall i :: 0 <= i < |evs| ==> InOrder(evs[i])
    ensures q.clock.locked <= LaunchSample(q) ==> Consume(Run(w, evs), q, sha).Failure?
    ensures q.clock.locked <= q.clock.system ==> CheckLive(Run(w, evs), q).Failure?
  {
    hide Reachable, Leads, Next, Consume, CheckLive, InOrder, LeaseUnmoved, Inv, Later, LaunchSample;
    LeaseEndsWithClock(w, evs, j);
    ReachableInv(w);
    RunInvariant(w, evs);
    ClockOnward(w, Run(w, evs));
    LaunchRecords(Run(w, evs), q, sha);
    LateLaunchFails(w, Run(w, evs), j, q, sha);
  }

  // ----- When completions happen -----

  /** A completion commits only strictly inside the lease and every ceiling, at both of its live checks. */
  lemma CompletionChecked(w: World, q: FinishRequest)
    requires Finish(w, q).Success? && q.outcome == Completed && w.results[q.owned.binding.contract].outcome.None?
    ensures HasCeiling(w, q.owned.job)
    ensures var x := w.executions[q.owned.job];
            && x.phase == Active && !w.results[q.owned.binding.contract].preflightFailed
            && Max(q.live, q.liveSystem) < x.expiresAt && Max(q.live, q.liveSystem) < LeaseCeiling(w, q.owned.job)
            && Max(q.final, q.finalSystem) < x.expiresAt && Max(q.final, q.finalSystem) < LeaseCeiling(w, q.owned.job)
    ensures w.observed.Some? && w.observed.value <= q.locked
    ensures var v := Finish(w, q).value.world;
            && q.owned.binding.contract in v.results
            && v.results[q.owned.binding.contract]
               == w.results[q.owned.binding.contract].(outcome := Some(Completed), finishedAt := Some(q.finished))
            && q.owned.job in v.jobs && v.jobs[q.owned.job].status == Done && q.owned.job in v.executions
            && v.executions[q.owned.job] == w.executions[q.owned.job].(phase := Ended(Completed), reserved := false)
  {
  }

  /** The transaction itself never reads the time it stores: whichever sample that was, it commits alike. */
  lemma FinishTimeUnread(w: World, q: FinishRequest, t: Instant)
    requires Finish(w, q).Success?
    ensures Finish(w, q.(finished := t)).Success?
  {
    hide ClaimPermission, CheckCompletable, OwnedConsumed;
    OwnedRowsExist(w, q.owned);
    var u := Terminated(w, q.owned.job, q.outcome, q.finished);
    var v := Terminated(w, q.owned.job, q.outcome, t);
    assert u.executions[q.owned.job] == v.executions[q.owned.job];
  }

  /** The samples an operation's clock gave for the stored completion time and for the check after it. */
  datatype Samples = Samples(anchor: Instant, wall: Instant, elapsed: int, wallAfter: Instant, elapsedAfter: int)

  /** Both are samples of one clock, taken in this order. */
  predicate OneClock(q: FinishRequest, s: Samples) {
    && 0 <= s.elapsed <= s.elapsedAfter
    && Now(s.anchor, s.wall, s.elapsed) == Success(q.finished)
    && Now(s.anchor, s.wallAfter, s.elapsedAfter) == Success(q.final)
  }

  /** The stored completion time is a sample, never before its anchor, but it is compared with nothing:
      it is inside the lease, and inside the ceiling, exactly when the wall clock read at that moment is. */
  lemma CompletionTimeExactly(w: World, q: FinishRequest, s: Samples)
    requires Finish(w, q).Success? && q.outcome == Completed && w.results[q.owned.binding.contract].outcome.None?
    requires OneClock(q, s)
    ensures s.anchor <= q.finished
    ensures HasCeiling(w, q.owned.job)
    ensures q.finished < LeaseCeiling(w, q.owned.job) <==> s.wall < LeaseCeiling(w, q.owned.job)
    ensures q.finished < w.executions[q.owned.job].expiresAt <==> s.wall < w.executions[q.owned.job].expiresAt
  {
    CompletionChecked(w, q);
    hide Finish, Ceiling;
  }
}
