/** One run from nothing to a completed managed job: the guarantees are not about runs that cannot happen. */
module Witness {
  import opened Wrappers
  import opened Records
  import opened Budgets
  import opened AuthorityEdits
  import opened JobSteps
  import opened JobRules
  import opened ManagedSteps
  import opened Protocol
  import opened Evolution
  import opened Guarantees
  import opened Timing
  import opened Leases

  const ENGAGED: EngagementId := 1
  const WORK: JobId := 2
  const CASE_ID: CaseId := 3
  const GRANT_ID: AuthorizationId := 5
  const OWNER: UserId := 7
  const APPROVED: ApprovalId := 9
  const CONTRACT: ContractId := 11

  const CASE := CaseSpec(30, 31, Some({1}))
  const GRANT := Grant("active", "http", "owner", None, "ref", None, None)
  const START := Authority("pentest", "active", None, None, None, map[], map[], false, Limits(None, None, None))

  /** A store holding one engagement and nothing else. */
  function Only(g: Engagement): World {
    EMPTY.(engagements := map[ENGAGED := g], history := History({}, {} + {ENGAGED}, [], multiset{}))
  }

  const BARE := Engagement(OWNER, START, map[], map[], 0, 0, 0)
  const GRANTED := BARE.(authority := START.(grants := START.grants[GRANT_ID := GRANT]),
                   notes := BARE.notes[GRANT_ID := ""], revision := 1)
  const WITH_CASE := GRANTED.(cases := GRANTED.cases[CASE_ID := CASE])
  const WITH_CAPACITY := WITH_CASE.(authority := WITH_CASE.authority.(limits := Limits(Some(1), None, None)),
                         revision := 2)
  const WITH_TARGETS := WITH_CAPACITY.(authority := WITH_CAPACITY.authority.(limits := Limits(Some(1), Some(10), None)),
                        revision := 3)
  const READY := WITH_TARGETS.(authority := WITH_TARGETS.authority.(limits := Limits(Some(1), Some(10), Some(100))),
                 revision := 4)

  lemma Then(w: World, ev: Event, v: World, r: Reply)
    requires Reachable(w) && Transact(w, ev) == Committed(v, r)
    ensures Reachable(v)
  {
    hide Transact;
    var evs :| w == Run(EMPTY, evs);
    assert (evs + [ev])[..|evs|] == evs;
    assert v == Run(EMPTY, evs + [ev]);
  }

  lemma NothingYet()
    ensures Reachable(EMPTY)
  {
    assert Run(EMPTY, []) == EMPTY;
  }

  lemma OnlyChanged(g: Engagement, h: Engagement)
    ensures WithEngagement(Only(g), ENGAGED, h) == Only(h)
  {
    assert map[ENGAGED := g][ENGAGED := h] == map[ENGAGED := h];
  }

  lemma NothingRuns(g: Engagement)
    ensures Idle(Only(g), ENGAGED)
  {
  }

  lemma Created()
    ensures CreateEngagement(EMPTY, ENGAGED, OWNER, "pentest", "active") == Committed(Only(BARE), Plain)
  {
    assert EMPTY.engagements[ENGAGED := BARE] == map[ENGAGED := BARE];
    assert Only(BARE).history == EMPTY.history.(engagements := EMPTY.history.engagements + {ENGAGED});
  }

  lemma Authorized()
    ensures EditEngagement(Only(BARE), ENGAGED, CreateAuthorization(GRANT_ID, GRANT, ""))
         == Committed(Only(GRANTED), Plain)
    ensures EditEngagement(Only(GRANTED), ENGAGED, CreateCase(CASE_ID, CASE)) == Committed(Only(WITH_CASE), Plain)
  {
    OnlyChanged(BARE, GRANTED);
    OnlyChanged(GRANTED, WITH_CASE);
    hide WithEngagement;
  }

  lemma Configured()
    ensures ConfigureConcurrency(Only(WITH_CASE), ENGAGED, Some(1)) == Committed(Only(WITH_CAPACITY), Plain)
    ensures ConfigureTargets(Only(WITH_CAPACITY), ENGAGED, Some(10)) == Committed(Only(WITH_TARGETS), Plain)
    ensures ConfigureDuration(Only(WITH_TARGETS), ENGAGED, Some(100)) == Committed(Only(READY), Plain)
  {
    OnlyChanged(WITH_CASE, WITH_CAPACITY);
    OnlyChanged(WITH_CAPACITY, WITH_TARGETS);
    OnlyChanged(WITH_TARGETS, READY);
    NothingRuns(WITH_CASE);
    NothingRuns(WITH_CAPACITY);
    NothingRuns(WITH_TARGETS);
    hide Idle, WithEngagement;
  }

  // ----- The managed job -----

  const SPEC := JobSpec(Gate, Some(CASE_ID), true)
  const JOB := Job(ENGAGED, Gate, Some(CASE_ID), None, Pending, true, None, None, None, None)
  const FACTS := Facts(true, true)
  const CONTEXT := Context(ENGAGED, WORK, 4, READY.authority, 30, 0, 1000 * SECOND, 0, 1000 * SECOND, 1, 60, 1000, [])
  const ENVELOPE := Envelope(APPROVED, OWNER, 0, CONTEXT, true)
  const REGISTER := RegisterRequest(WORK, OWNER, GRANT_ID, 30, ENVELOPE, FACTS, 1, 1, 1, 1)
  const ROW := Approval(WORK, ENGAGED, GRANT_ID, OWNER, ENVELOPE, 30, 0, false)

  const HOLDER := Holder(OWNER, 1, 1, 1, 1)
  const CONTROL := Control(HOLDER, true, Some(TargetBinding(30, {1})), Some(60))
  const CLAIMING := ClaimRequest(WORK, CONTROL, FACTS, CONTRACT, 1, 1, 2, 2, 2, 2, 2, 2, 2)

  /** The end of the lease given at the claim. */
  const LEASE_END := 2 + LEASE
  const RUNNING := Execution(HOLDER, LEASE_END, Active, true, 1, 60)
  const ISSUED := Contract(CONTRACT, APPROVED, 1, 1, 1, 1, false)
  const BINDING := Binding(CONTRACT, 1, 1, 1)

  const LIVE := LiveRequest(WORK, HOLDER, CONTRACT, 1, 1, FACTS, Clock(3, 3, 3, 3, 3, 3, 3, 3, 3))
  const OWNED := OwnedRequest(WORK, HOLDER, BINDING)
  const SUBMIT := SubmitRequest(OWNED, 10, true, 70, Upload(Payload(50, 51), Some(30), Some(31)), false, 4)
  const RESULT := ManagedResult(WORK, BINDING, 70, 30, false, None, None)
  const RECEIPT := ResultReceipt(WORK, BINDING, 70, 30)
  const FINISH := FinishRequest(OWNED, RECEIPT, Completed, FACTS, 5, 5, 5, 5, 5, 5, 5, 5, 5)

  function QueuedStore(): World { Added(Only(READY), ENGAGED, WORK, SPEC, None) }
  function ObservedStore(): World { QueuedStore().(observed := Some(0)) }

  function RegisteredStore(): World {
    var marked := WithJob(ObservedStore(), WORK, JOB.(approval := Some(APPROVED)));
    marked.(approvals := ObservedStore().approvals[APPROVED := ROW], observed := Some(1))
  }

  lemma RegisteredRows()
    ensures var w := RegisteredStore();
            && w.engagements == map[ENGAGED := READY]
            && w.jobs == map[WORK := JOB.(approval := Some(APPROVED))]
            && APPROVED in w.approvals && w.approvals[APPROVED] == ROW && w.observed == Some(1)
            && w.executions == map[] && w.contracts == map[]
  {
  }

  function ClaimingStore(): World { RegisteredStore().(observed := Some(2)) }

  lemma Queued()
    ensures CreateJob(Only(READY), ENGAGED, WORK, SPEC, None) == Committed(QueuedStore(), Plain)
    ensures ObserveClock(QueuedStore(), 0) == Committed(ObservedStore(), Plain)
  {
  }

  lemma Registered()
    ensures Register(ObservedStore(), REGISTER) == Committed(RegisteredStore(), Plain)
  {
    assert JOB.(approval := Some(APPROVED), contractRequired := true) == JOB.(approval := Some(APPROVED));
    assert CONTEXT.(engagement := ENGAGED, job := WORK, revision := 4, authority := READY.authority, caseHash := 30,
                    testingStart := 0, testingEnd := 1000 * SECOND) == CONTEXT;
  }

  lemma Nobody(w: World)
    requires w.executions == map[]
    ensures ReservedJobs(w, ENGAGED) == {}
  {
  }

  lemma PermittedTo(w: World, status: Status, t: Instant)
    requires ENGAGED in w.engagements && WORK in w.jobs
    requires var g := w.engagements[ENGAGED];
             g.owner == OWNER && g.authority == READY.authority && g.cases == READY.cases && g.revision == 4
    requires var j := w.jobs[WORK];
             j.engagement == ENGAGED && j.approval == Some(APPROVED) && j.status == status && j.tool == Gate
             && j.testCase == Some(CASE_ID)
    requires APPROVED in w.approvals && w.approvals[APPROVED].(issued := 0) == ROW && 0 <= t < 1000 * SECOND
    ensures ClaimPermission(w, WORK, FACTS, status, t) == Success(w.approvals[APPROVED])
  {
    assert CONTEXT.(engagement := ENGAGED, job := WORK, revision := 4, authority := READY.authority, caseHash := 30,
                    testingStart := 0, testingEnd := 1000 * SECOND) == CONTEXT;
  }

  lemma Affordable()
    ensures ChargeTargets(READY, Gate, Some(CASE), Some(TargetBinding(30, {1}))) == Success(1)
    ensures AllocateDuration(READY, Some(60)) == Success(60)
    ensures CheckCapacity(ClaimingStore(), ENGAGED, true) == Pass
  {
    assert ExpectedBinding(CASE) == Some(TargetBinding(30, {1}));
    Nobody(ClaimingStore());
  }

  function RunningStore(): World {
    var started := Started(ClaimingStore(), WORK, Some(CASE), 2, 1, 60);
    WithContract(WithExecution(started, WORK, RUNNING), WORK, ISSUED).(observed := Some(2))
  }

  lemma IssueCommits()
    ensures var started := Started(ClaimingStore(), WORK, Some(CASE), 2, 1, 60);
            IssueContract(WithExecution(started, WORK, RUNNING), CLAIMING, APPROVED) == Success(RunningStore())
  {
    RegisteredRows();
    hide RegisteredStore;
  }

  lemma ClaimCommits()
    ensures ManagedClaim(RegisteredStore(), CLAIMING) == Committed(RunningStore(), Issued(ISSUED, RUNNING))
  {
    RegisteredRows();
    PermittedTo(RegisteredStore(), Pending, 2);
    Affordable();
    IssueCommits();
    hide RegisteredStore, ClaimPermission, CheckCapacity, ChargeTargets, AllocateDuration, IssueContract, Started;
    hide RunningStore;
  }

  /** The rows of the claimed job. */
  predicate ClaimedRows(w: World) {
    && ENGAGED in w.engagements && w.engagements[ENGAGED] == READY.(targetsSpent := 1, durationAllocated := 60)
    && WORK in w.jobs
    && w.jobs[WORK] == JOB.(approval := Some(APPROVED), status := Running, startedAt := Some(2), snapshot := Some(CASE))
    && WORK in w.executions && w.executions[WORK] == RUNNING
    && APPROVED in w.approvals && w.approvals[APPROVED] == ROW.(issued := 1)
  }

  lemma RunningRows()
    ensures ClaimedRows(RunningStore()) && RunningStore().contracts == map[WORK := ISSUED]
            && RunningStore().observed == Some(2)
    ensures RunningStore().results == map[] && RunningStore().receipts == map[]
  {
  }

  lemma MayAct(w: World, c: Clock)
    requires ClaimedRows(w) && w.contracts == map[WORK := ISSUED] && w.observed.Some? && w.observed.value <= c.locked
    requires 0 <= c.permitted < 1000 * SECOND && 0 <= c.rechecked < 1000 * SECOND && c.system < LEASE_END
    ensures Authorize(w, LIVE.(clock := c)) == Success(w.(observed := Some(c.locked)))
  {
    PermittedTo(w, Running, c.permitted);
    hide ClaimPermission;
  }

  function LaunchedStore(): World {
    RunningStore().(contracts := RunningStore().contracts[WORK := ISSUED.(consumed := true)], observed := Some(3))
  }

  lemma ConsumeCommits()
    ensures Consume(RunningStore(), LIVE, 1) == Committed(LaunchedStore(), Launched(BINDING))
  {
    RunningRows();
    MayAct(RunningStore(), LIVE.clock);
    hide Authorize, RunningStore;
  }

  function EvidencedStore(): World {
    var w := LaunchedStore();
    w.(receipts := w.receipts[WORK := 50], history := w.history.(evidence := w.history.evidence + multiset{WORK}))
  }

  function SubmittedStore(): World {
    EvidencedStore().(results := LaunchedStore().results[CONTRACT := RESULT], observed := Some(4))
  }

  lemma SubmitCommits()
    ensures Submit(LaunchedStore(), SUBMIT) == Committed(SubmittedStore(), Retained(RECEIPT))
  {
    RunningRows();
    hide RunningStore;
  }

  function CompletedStore(): World {
    var closed := RESULT.(outcome := Some(Completed), finishedAt := Some(5));
    var ended := Terminated(SubmittedStore(), WORK, Completed, 5);
    ended.(results := SubmittedStore().results[CONTRACT := closed], observed := Some(5))
  }

  lemma Completable()
    ensures OwnedConsumed(SubmittedStore(), OWNED).Pass? && MayComplete(SubmittedStore(), FINISH, RESULT) == Pass
  {
    RunningRows();
    PermittedTo(SubmittedStore(), Running, 5);
    hide ClaimPermission, RunningStore;
  }

  lemma StillCompletable()
    ensures Known(SubmittedStore(), WORK) && CheckCompletable(SubmittedStore(), WORK, 5, 5) == Pass
  {
  }

  lemma FinishCommits()
    ensures Finish(SubmittedStore(), FINISH) == Committed(CompletedStore(), Completion(RECEIPT, Completed))
  {
    RunningRows();
    Completable();
    StillCompletable();
    hide MayComplete, CheckCompletable, OwnedConsumed, RunningStore;
  }

  lemma EngagementReachable()
    ensures Reachable(Only(READY))
  {
    hide Reachable;
    hide CreateEngagement, EditEngagement, ConfigureConcurrency, ConfigureTargets, ConfigureDuration;
    hide DeleteEngagement, EngageStopWork, ReleaseStopWork, CreateJob, CreatePipeline, Poll, PatchJob, DeleteJob;
    hide LegacyClaim, LegacyRefresh, LegacyFinish, UploadResult, ObserveClock;
    hide Register, Revoke, ManagedClaim, CheckLive, Renew, Consume, Submit, Finish, ReportStop;
    NothingYet();
    Created();
    Authorized();
    Configured();
    Then(EMPTY, EvCreateEngagement(ENGAGED, OWNER, "pentest", "active"), Only(BARE), Plain);
    Then(Only(BARE), EvEdit(ENGAGED, CreateAuthorization(GRANT_ID, GRANT, "")), Only(GRANTED), Plain);
    Then(Only(GRANTED), EvEdit(ENGAGED, CreateCase(CASE_ID, CASE)), Only(WITH_CASE), Plain);
    Then(Only(WITH_CASE), EvConfigureConcurrency(ENGAGED, Some(1)), Only(WITH_CAPACITY), Plain);
    Then(Only(WITH_CAPACITY), EvConfigureTargets(ENGAGED, Some(10)), Only(WITH_TARGETS), Plain);
    Then(Only(WITH_TARGETS), EvConfigureDuration(ENGAGED, Some(100)), Only(READY), Plain);
  }

  lemma ClaimReachable()
    ensures Reachable(RegisteredStore()) && Reachable(RunningStore())
  {
    hide Reachable, QueuedStore, ObservedStore, RegisteredStore, RunningStore;
    hide CreateEngagement, EditEngagement, ConfigureConcurrency, ConfigureTargets, ConfigureDuration;
    hide DeleteEngagement, EngageStopWork, ReleaseStopWork, CreateJob, CreatePipeline, Poll, PatchJob, DeleteJob;
    hide LegacyClaim, LegacyRefresh, LegacyFinish, UploadResult, ObserveClock;
    hide Register, Revoke, ManagedClaim, CheckLive, Renew, Consume, Submit, Finish, ReportStop;
    EngagementReachable();
    Queued();
    Registered();
    ClaimCommits();
    Then(Only(READY), EvCreateJob(ENGAGED, WORK, SPEC, None), QueuedStore(), Plain);
    Then(QueuedStore(), EvObserve(0), ObservedStore(), Plain);
    Then(ObservedStore(), EvRegister(REGISTER), RegisteredStore(), Plain);
    Then(RegisteredStore(), EvClaim(CLAIMING), RunningStore(), Issued(ISSUED, RUNNING));
  }

  lemma CompletionReachable()
    ensures Reachable(LaunchedStore()) && Reachable(SubmittedStore()) && Reachable(CompletedStore())
  {
    hide CreateEngagement, EditEngagement, ConfigureConcurrency, ConfigureTargets, ConfigureDuration;
    hide DeleteEngagement, EngageStopWork, ReleaseStopWork, CreateJob, CreatePipeline, Poll, PatchJob, DeleteJob;
    hide LegacyClaim, LegacyRefresh, LegacyFinish, UploadResult, ObserveClock;
    hide Register, Revoke, ManagedClaim, CheckLive, Renew, Consume, Submit, Finish, ReportStop;
    hide Reachable, RunningStore, LaunchedStore, SubmittedStore, CompletedStore;
    ClaimReachable();
    ConsumeCommits();
    SubmitCommits();
    FinishCommits();
    Then(RunningStore(), EvConsume(LIVE, 1), LaunchedStore(), Launched(BINDING));
    Then(LaunchedStore(), EvSubmit(SUBMIT), SubmittedStore(), Retained(RECEIPT));
    Then(SubmittedStore(), EvFinish(FINISH), CompletedStore(), Completion(RECEIPT, Completed));
  }

  /** A managed job can be registered, claimed, launched, reported and completed: some run does it. */
  lemma CompletionHappens() returns (v: World)
    ensures Reachable(v) && WORK in v.jobs && Managed(v.jobs[WORK]) && v.jobs[WORK].status == Done
    ensures WORK in v.executions && v.executions[WORK].phase == Ended(Completed)
  {
    hide Reachable;
    CompletionReachable();
    v := CompletedStore();
  }

  // ----- A first lease past its ceiling -----

  /** The claim above, allocated one second. */
  const SHORT := CLAIMING.(control := CONTROL.(seconds := Some(1)))

  lemma ShortIssueCommits()
    ensures var started := Started(ClaimingStore(), WORK, Some(CASE), 2, 1, 1);
            IssueContract(WithExecution(started, WORK, RUNNING.(seconds := 1)), SHORT, APPROVED).Success?
  {
    RegisteredRows();
    hide RegisteredStore;
  }

  lemma ShortClaimCommits()
    ensures ManagedClaim(RegisteredStore(), SHORT).Success?
  {
    RegisteredRows();
    PermittedTo(RegisteredStore(), Pending, 2);
    Affordable();
    assert AllocateDuration(READY, Some(1)) == Success(1);
    ShortIssueCommits();
    hide RegisteredStore, ClaimPermission, CheckCapacity, ChargeTargets, AllocateDuration, IssueContract, Started;
  }

  /** A claim can give a lease nine seconds past its ceiling: allocated one second, from a reachable store. */
  lemma FirstLeaseOutlivesCeiling()
    ensures Reachable(RegisteredStore()) && ManagedClaim(RegisteredStore(), SHORT).Success?
    ensures var v := ManagedClaim(RegisteredStore(), SHORT).value.world;
            HasCeiling(v, WORK) && LeaseCeiling(v, WORK) + 9 * SECOND == v.executions[WORK].expiresAt
  {
    ClaimReachable();
    ShortClaimCommits();
    RegisteredRows();
    ShortCeiling();
    ClaimedLease(RegisteredStore(), SHORT);
    hide Reachable, Leads, ManagedClaim, RegisteredStore, Ceiling, LeaseCeiling;
  }

  lemma ShortCeiling()
    ensures Ceiling(CONTEXT, 2, 1) == 2 + SECOND
  {
  }

  // ----- A result after a stop -----

  const STOP := StopRequest(OWNED, ToolTimeout, 4, 4)
  const STOPPED := ManagedStop(WORK, BINDING, Unsuccessful, ToolTimeout, 4)

  function StoppedStore(): World {
    var w := LaunchedStore();
    Terminated(w, WORK, Unsuccessful, 4).(stops := w.stops[CONTRACT := STOPPED], observed := Some(4))
  }

  lemma StopCommits()
    ensures ReportStop(LaunchedStore(), STOP) == Committed(StoppedStore(), Stopped(BINDING, Unsuccessful, ToolTimeout))
    ensures CONTRACT in StoppedStore().stops
  {
    RunningRows();
    NothingStopped();
    hide RunningStore;
  }

  lemma NothingStopped()
    ensures RunningStore().stops == map[]
  {
  }

  /** A stop fails the job and ends its execution. Its approval and its launched contract stay, with no result yet. */
  lemma StoppedRows()
    ensures var v := StoppedStore();
            && ENGAGED in v.engagements && APPROVED in v.approvals && v.approvals[APPROVED] == ROW.(issued := 1)
            && WORK in v.jobs && WORK in v.executions && v.executions[WORK].holder == RUNNING.holder
            && v.jobs[WORK] == JOB.(approval := Some(APPROVED), status := Failed, startedAt := Some(2),
                                    completedAt := Some(4), snapshot := Some(CASE))
            && v.contracts == map[WORK := ISSUED.(consumed := true)]
            && v.results == map[] && v.receipts == map[] && v.observed == Some(4)
  {
    RunningRows();
    hide RunningStore;
  }

  lemma LateOwner()
    ensures OwnedConsumed(StoppedStore(), OWNED).Pass? && RetainedResult(StoppedStore(), OWNED) == Success(None)
  {
    StoppedRows();
    hide StoppedStore;
  }

  lemma LateResultCommits()
    ensures Submit(StoppedStore(), SUBMIT.(locked := 5)).Success?
    ensures CONTRACT in Submit(StoppedStore(), SUBMIT.(locked := 5)).value.world.results
  {
    StoppedRows();
    LateOwner();
    hide StoppedStore, RetainedResult, OwnedConsumed;
  }

  /** In a reachable store a stop is reported, and the first result of its contract is accepted after it. */
  lemma ResultAfterStopHappens()
    ensures Reachable(StoppedStore()) && CONTRACT in StoppedStore().stops
    ensures Submit(StoppedStore(), SUBMIT.(locked := 5)).Success?
    ensures CONTRACT in Submit(StoppedStore(), SUBMIT.(locked := 5)).value.world.results
  {
    hide CreateEngagement, EditEngagement, ConfigureConcurrency, ConfigureTargets, ConfigureDuration;
    hide DeleteEngagement, EngageStopWork, ReleaseStopWork, CreateJob, CreatePipeline, Poll, PatchJob, DeleteJob;
    hide LegacyClaim, LegacyRefresh, LegacyFinish, UploadResult, ObserveClock;
    hide Register, Revoke, ManagedClaim, CheckLive, Renew, Consume, Submit, Finish, ReportStop;
    hide Reachable, LaunchedStore, StoppedStore;
    CompletionReachable();
    StopCommits();
    LateResultCommits();
    Then(LaunchedStore(), EvReportStop(STOP), StoppedStore(), Stopped(BINDING, Unsuccessful, ToolTimeout));
  }

  // ----- What one dip of the wall clock can do -----

  /** The completion above, with the wall clock reading far ahead while the stored time was taken. */
  const LATE := FINISH.(finished := 2000 * SECOND)

  lemma CeilingIs()
    ensures Ceiling(CONTEXT, 2, 60) == 2 + 60 * SECOND
    ensures WholeSeconds(2 + 60 * SECOND - (LEASE_END - 1)) == 50
  {
  }

  lemma CeilingNear()
    ensures HasCeiling(SubmittedStore(), WORK) && LeaseCeiling(SubmittedStore(), WORK) == 2 + 60 * SECOND
    ensures SubmittedStore().executions[WORK].expiresAt == LEASE_END
  {
    RunningRows();
    CeilingIs();
    hide Ceiling, RunningStore;
  }

  lemma LateCommits()
    ensures Finish(SubmittedStore(), LATE).Success?
    ensures CONTRACT in SubmittedStore().results && SubmittedStore().results[CONTRACT].outcome.None?
  {
    FinishCommits();
    hide Finish;
    FinishTimeUnread(SubmittedStore(), FINISH, 2000 * SECOND);
  }

  lemma LateStored()
    ensures Finish(SubmittedStore(), LATE).Success?
    ensures var v := Finish(SubmittedStore(), LATE).value.world;
            CONTRACT in v.results && v.results[CONTRACT].outcome == Some(Completed)
            && v.results[CONTRACT].finishedAt == Some(LATE.finished)
  {
    LateCommits();
    hide Finish, SubmittedStore;
    CompletionChecked(SubmittedStore(), LATE);
  }

  /** A completion can store a time past its lease and past every ceiling: here the wall clock read two
      thousand seconds for that one sample and five microseconds at the checks on either side of it. */
  lemma LateCompletionHappens()
    ensures Reachable(SubmittedStore()) && Finish(SubmittedStore(), LATE).Success?
    ensures LATE.outcome == Completed && OneClock(LATE, Samples(5, 2000 * SECOND, 0, 5, 0))
    ensures HasCeiling(SubmittedStore(), WORK) && LeaseCeiling(SubmittedStore(), WORK) < LATE.finished
    ensures SubmittedStore().executions[WORK].expiresAt < LATE.finished
    ensures var v := Finish(SubmittedStore(), LATE).value.world;
            CONTRACT in v.results && v.results[CONTRACT].outcome == Some(Completed)
            && v.results[CONTRACT].finishedAt == Some(LATE.finished)
  {
    CompletionReachable();
    CeilingNear();
    LateStored();
    hide Reachable, Leads, Finish, SubmittedStore, LeaseCeiling;
  }

  function OverdueStore(): World { RunningStore().(observed := Some(LEASE_END)) }

  function RevivedStore(): World { WithExecution(OverdueStore(), WORK, RUNNING.(expiresAt := LEASE_END - 1 + LEASE)) }

  /** A renewal whose middle samples fell back by one microsecond. */
  const DIPPED := LEASE_END - 1
  const REVIVING := LIVE.(clock := Clock(LEASE_END, LEASE_END, DIPPED, DIPPED, DIPPED, DIPPED, LEASE_END, LEASE_END,
                                         LEASE_END))

  lemma RevivalCommits()
    ensures Renew(OverdueStore(), REVIVING) == Committed(RevivedStore(), Renewed(10, LEASE_END - 1 + LEASE))
  {
    RunningRows();
    MayAct(OverdueStore(), REVIVING.clock);
    CeilingIs();
    hide Authorize, RunningStore, Ceiling, WholeSeconds;
  }

  /** Without order inside an operation the clock row is not enough: with the lease's end already recorded
      there, a wall clock that falls back one microsecond while the renewal looks at the lease revives it. */
  lemma RevivalHappens()
    ensures Reachable(OverdueStore()) && WORK in OverdueStore().contracts
    ensures OverdueStore().observed == Some(OverdueStore().executions[WORK].expiresAt)
    ensures Renew(OverdueStore(), REVIVING).Success? && !InOrder(EvRenew(REVIVING))
    ensures !LeaseUnmoved(OverdueStore(), Next(OverdueStore(), EvRenew(REVIVING)), WORK)
    ensures Now(2, LEASE_END, 0) == Success(REVIVING.clock.locked)
            && Now(2, LEASE_END - 1, 0) == Success(REVIVING.clock.instant)
  {
    RevivalCommits();
    OverdueReachable();
    OverdueRows();
    hide Reachable, Leads, OverdueStore, RevivedStore;
    hide CreateEngagement, EditEngagement, ConfigureConcurrency, ConfigureTargets, ConfigureDuration;
    hide DeleteEngagement, EngageStopWork, ReleaseStopWork, CreateJob, CreatePipeline, Poll, PatchJob, DeleteJob;
    hide LegacyClaim, LegacyRefresh, LegacyFinish, UploadResult, ObserveClock;
    hide Register, Revoke, ManagedClaim, CheckLive, Renew, Consume, Submit, Finish, ReportStop;
  }

  lemma OverdueRows()
    ensures WORK in OverdueStore().contracts && WORK in OverdueStore().executions
    ensures OverdueStore().executions[WORK].expiresAt == LEASE_END
    ensures OverdueStore().observed == Some(OverdueStore().executions[WORK].expiresAt)
    ensures WORK in RevivedStore().jobs && WORK in RevivedStore().executions
    ensures RevivedStore().executions[WORK].expiresAt == LEASE_END - 1 + LEASE
  {
    RunningRows();
    hide RunningStore;
  }

  lemma OverdueReachable()
    ensures Reachable(OverdueStore())
  {
    hide CreateEngagement, EditEngagement, ConfigureConcurrency, ConfigureTargets, ConfigureDuration;
    hide DeleteEngagement, EngageStopWork, ReleaseStopWork, CreateJob, CreatePipeline, Poll, PatchJob, DeleteJob;
    hide LegacyClaim, LegacyRefresh, LegacyFinish, UploadResult;
    hide Register, Revoke, ManagedClaim, CheckLive, Renew, Consume, Submit, Finish, ReportStop;
    hide Reachable, RunningStore;
    ClaimReachable();
    Then(RunningStore(), EvObserve(LEASE_END), OverdueStore(), Plain) by { ObserveCommits(); }
  }

  lemma ObserveCommits()
    ensures ObserveClock(RunningStore(), LEASE_END) == Committed(OverdueStore(), Plain)
  {
  }

  // ----- A pipeline made under the brake -----

  const BRAKED := READY.(authority := READY.authority.(stopWork := true), revision := 5)
  const PLAIN_JOB := JobSpec(OtherTool, None, false)

  lemma BrakePulled()
    ensures EngageStopWork(Only(READY), ENGAGED) == Committed(Only(BRAKED), Plain)
  {
    OnlyChanged(READY, BRAKED);
    var none: map<JobId, Execution> := map j | j in Only(READY).executions :: Only(READY).executions[j];
    assert none == map[];
  }

  /** A reachable store under the brake in which a job is refused for it, and the same job as a pipeline is made. */
  lemma BrakedPipelineHappens()
    ensures Reachable(Only(BRAKED)) && Only(BRAKED).engagements[ENGAGED].authority.stopWork
    ensures CreateJob(Only(BRAKED), ENGAGED, WORK, PLAIN_JOB, None) == Failure(StopWorkActive)
    ensures CreatePipeline(Only(BRAKED), ENGAGED, [(WORK, PLAIN_JOB)]).Success?
  {
    hide Reachable, EngageStopWork, CreateJob, CreatePipeline;
    EngagementReachable();
    BrakePulled();
    BrakeStep();
    Then(Only(READY), EvEngageStopWork(ENGAGED), Only(BRAKED), Plain);
    PipelineUnderBrake(Only(BRAKED), ENGAGED, WORK, PLAIN_JOB);
  }

  lemma BrakeStep()
    ensures Transact(Only(READY), EvEngageStopWork(ENGAGED)) == EngageStopWork(Only(READY), ENGAGED)
  {
    hide EngageStopWork;
  }
}
