/** What the protocol guarantees over whole runs. */
module Guarantees {
  import opened Wrappers
  import opened Records
  import opened Budgets
  import opened AuthorityEdits
  import opened JobSteps
  import opened ManagedSteps
  import opened Protocol
  import opened Frames
  import opened Preservation
  import opened ManagedPreservation
  import opened Evolution
  import opened Runs
  import opened Footprints

  /** Some run leads from one store to the other. */
  ghost predicate Leads(w: World, v: World) {
    exists evs :: v == Run(w, evs)
  }

  ghost predicate Reachable(w: World) {
    Leads(EMPTY, w)
  }

  lemma LeadsLater(w: World, v: World)
    requires Inv(w) && Leads(w, v)
    ensures Inv(v) && Later(w, v)
  {
    var evs :| v == Run(w, evs);
    RunInvariant(w, evs);
    hide Leads;
  }

  lemma ReachableInv(w: World)
    requires Reachable(w)
    ensures Inv(w)
  {
    EmptyOk();
    LeadsLater(EMPTY, w);
    hide Reachable, Leads; // for those who call this, reachability is a name
  }

  lemma ReachableLater(w: World, v: World)
    requires Reachable(w) && Leads(w, v)
    ensures Inv(w) && Inv(v) && Later(w, v)
  {
    hide Reachable, Leads;
    ReachableInv(w);
    LeadsLater(w, v);
  }

  lemma SomeRun(v: World) returns (evs: seq<Event>)
    requires Reachable(v)
    ensures v == Run(EMPTY, evs)
  {
    hide Run;
    evs :| v == Run(EMPTY, evs);
  }

  lemma LeadsBy(w: World, evs: seq<Event>)
    ensures Leads(w, Run(w, evs))
  {
    hide Next;
    assert Run(w, evs) == Run(w, evs);
  }

  lemma ReachableBy(evs: seq<Event>)
    ensures Reachable(Run(EMPTY, evs))
  {
    hide Next, Leads, Run;
    LeadsBy(EMPTY, evs);
  }

  /** Every store along a run is reachable, and the run leads on from it. */
  lemma Onward(evs: seq<Event>, k: nat)
    requires k <= |evs|
    ensures var u, v := Run(EMPTY, evs[..k]), Run(EMPTY, evs);
            Reachable(u) && Leads(u, v) && Inv(u) && Inv(v) && Later(u, v)
  {
    hide Run, Inv, Later, Reachable, Leads;
    assert evs[..k] + evs[k..] == evs;
    RunSplit(EMPTY, evs[..k], evs[k..]);
    EmptyOk();
    ReachableBy(evs[..k]);
    LeadsBy(Run(EMPTY, evs[..k]), evs[k..]);
    RunInvariant(EMPTY, evs[..k]);
    RunInvariant(Run(EMPTY, evs[..k]), evs[k..]);
  }

  // ----- Capacity -----

  /** Under a concurrency limit the running jobs are exactly the reservations and never exceed it;
      without one nothing is reserved. */
  lemma CapacityIsExact(w: World, e: EngagementId)
    requires Reachable(w) && e in w.engagements
    ensures match w.engagements[e].authority.limits.concurrency
            case Some(limit) => RunningJobs(w, e) == ReservedJobs(w, e) && |RunningJobs(w, e)| <= limit
            case None => ReservedJobs(w, e) == {}
  {
    hide Reachable, Leads;
    ReachableInv(w);
    assert EngagementOk(w, e);
    if w.engagements[e].authority.limits.concurrency.Some? {
      forall j | j in RunningJobs(w, e) ensures j in ReservedJobs(w, e) { assert JobOk(w, j); }
      forall j | j in ReservedJobs(w, e) ensures j in RunningJobs(w, e) { assert ExecutionOk(w, j); }
    }
  }

  // ----- Budgets -----

  lemma {:induction false} AllocationsCost(charges: seq<Charge>, e: EngagementId)
    ensures CountAllocations(charges, e) <= SumSeconds(charges, e)
  {
    if charges != [] {
      AllocationsCost(charges[..|charges| - 1], e);
    }
  }

  /** The totals are the sums of every charge ever committed, deleted jobs included; a set limit is
      never exceeded, an unset one means nothing was charged, and so a duration limit bounds the
      number of executions ever issued under it. */
  lemma BudgetsConserved(w: World, e: EngagementId)
    requires Reachable(w) && e in w.engagements
    ensures var g, limits := w.engagements[e], w.engagements[e].authority.limits;
            && g.targetsSpent == SumTargets(w.history.charges, e)
            && g.durationAllocated == SumSeconds(w.history.charges, e)
            && (if limits.targets.Some? then g.targetsSpent <= limits.targets.value else g.targetsSpent == 0)
            && (if limits.duration.Some?
                then CountAllocations(w.history.charges, e) <= g.durationAllocated <= limits.duration.value
                else CountAllocations(w.history.charges, e) == 0)
  {
    hide Reachable, Leads;
    ReachableInv(w);
    assert EngagementOk(w, e);
    AllocationsCost(w.history.charges, e);
  }

  /** No later event refunds anything. */
  lemma NothingRefunded(w: World, v: World, e: EngagementId)
    requires Reachable(w) && Leads(w, v) && e in w.engagements && e in v.engagements
    ensures var g, h := w.engagements[e], v.engagements[e];
            g.targetsSpent <= h.targetsSpent && g.durationAllocated <= h.durationAllocated
  {
    hide Reachable, Leads;
    ReachableLater(w, v);
    assert EngagementLater(w, v, e);
  }

  /** The observed clock never falls back, and no generated job or engagement identifier is used twice. */
  lemma ClockNeverFallsBack(w: World, v: World)
    requires Reachable(w) && Leads(w, v)
    ensures w.observed.Some? ==> v.observed.Some? && w.observed.value <= v.observed.value
    ensures forall j :: j in v.jobs && j !in w.jobs ==> j !in w.history.jobs
  {
    hide Reachable, Leads;
    ReachableLater(w, v);
    forall j | j in v.jobs && j !in w.jobs ensures j !in w.history.jobs { assert JobLater(w, v, j); }
  }

  // ----- Authority revisions -----

  /** Across any run, an equal revision means equal authority facts and unchanged test cases. */
  lemma RevisionStandsForFacts(w: World, v: World, e: EngagementId)
    requires Reachable(w) && Leads(w, v) && e in w.engagements && e in v.engagements
    ensures var g, h := w.engagements[e], v.engagements[e];
            && g.revision <= h.revision
            && (g.revision == h.revision ==> g.authority == h.authority && KeepsCases(g, h))
  {
    hide Reachable, Leads;
    ReachableLater(w, v);
    assert EngagementLater(w, v, e);
  }

  /** What permission means at the moment it is granted: the very facts that were signed, still in force. */
  predicate InForce(w: World, j: JobId, a: Approval, facts: Facts) {
    && j in w.jobs && w.jobs[j].engagement in w.engagements
    && !a.revoked && a.job == j && a.owner == w.engagements[w.jobs[j].engagement].owner
    && a.envelope.context.revision == w.engagements[w.jobs[j].engagement].revision
    && a.envelope.context.authority == w.engagements[w.jobs[j].engagement].authority
    && !a.envelope.context.authority.stopWork && facts.enrolled && facts.inScope
  }

  lemma PermissionIsInForce(w: World, j: JobId, facts: Facts, status: Status, t: Instant)
    requires Known(w, j) && ClaimPermission(w, j, facts, status, t).Success?
    ensures var a := ClaimPermission(w, j, facts, status, t).value;
            && w.jobs[j].approval.Some? && w.jobs[j].approval.value in w.approvals
            && a == w.approvals[w.jobs[j].approval.value]
            && InForce(w, j, a, facts) && WithinValidity(a.envelope, t) && w.jobs[j].status == status
  {
  }

  /** An event that acts under a managed approval, with the job it acts on. */
  function ActsOn(ev: Event): Option<JobId> {
    match ev
    case EvClaim(q) => Some(q.job)
    case EvCheckLive(q) => Some(q.job)
    case EvRenew(q) => Some(q.job)
    case EvConsume(q, _) => Some(q.job)
    case EvFinish(q) => if q.outcome == Completed then Some(q.owned.job) else None
    case _ => None
  }

  /** A commit that only repeats an earlier answer. */
  predicate Repeats(w: World, ev: Event) {
    ev.EvFinish? && ev.finish.owned.binding.contract in w.results
    && w.results[ev.finish.owned.binding.contract].outcome.Some?
  }

  function FactsOf(ev: Event): Facts {
    match ev
    case EvClaim(q) => q.facts
    case EvCheckLive(q) => q.facts
    case EvRenew(q) => q.facts
    case EvConsume(q, _) => q.facts
    case EvFinish(q) => q.facts
    case _ => Facts(false, false)
  }

  /** Every claim, check, renewal, launch and success commits only while its approval is in force. */
  lemma ActionsNeedForce(w: World, ev: Event, j: JobId)
    requires ActsOn(ev) == Some(j) && Transact(w, ev).Success? && !Repeats(w, ev)
    ensures j in w.jobs && w.jobs[j].approval.Some? && w.jobs[j].approval.value in w.approvals
    ensures InForce(w, j, w.approvals[w.jobs[j].approval.value], FactsOf(ev))
  {
    hide CreateEngagement, EditEngagement, ConfigureConcurrency, ConfigureTargets, ConfigureDuration;
    hide DeleteEngagement, EngageStopWork, ReleaseStopWork, CreateJob, CreatePipeline, Poll, PatchJob, DeleteJob;
    hide LegacyClaim, LegacyRefresh, LegacyFinish, UploadResult, Register, Revoke, Submit, ReportStop;
    hide ClaimPermission, CheckEnvelope, CheckCompletable, IssueContract, ChargeTargets, AllocateDuration, InForce;
    match ev
    case EvClaim(q) => PermissionIsInForce(w, j, q.facts, Pending, q.permitted);
    case EvCheckLive(q) => PermissionIsInForce(w, j, q.facts, Running, q.clock.permitted);
    case EvRenew(q) => PermissionIsInForce(w, j, q.facts, Running, q.clock.permitted);
    case EvConsume(q, _) => PermissionIsInForce(w, j, q.facts, Running, q.clock.permitted);
    case EvFinish(q) => PermissionIsInForce(w, j, q.facts, Running, q.permitted);
  }

  predicate Stale(w: World, id: ApprovalId)
    requires id in w.approvals
  {
    var a := w.approvals[id];
    a.revoked || a.engagement !in w.engagements || a.envelope.context.revision < w.engagements[a.engagement].revision
  }

  lemma StaleStaysStale(w: World, v: World, id: ApprovalId)
    requires Inv(w) && Later(w, v) && id in w.approvals && Stale(w, id)
    ensures id in v.approvals && Stale(v, id)
  {
    assert ApprovalLater(w, v, id) && ApprovalOk(w, id);
    assert EngagementLater(w, v, w.approvals[id].engagement);
  }

  lemma StaleRefuses(v: World, id: ApprovalId, ev: Event, j: JobId)
    requires Inv(v) && id in v.approvals && Stale(v, id) && ActsOn(ev) == Some(j)
    requires j in v.jobs && v.jobs[j].approval == Some(id) && !Repeats(v, ev)
    ensures Transact(v, ev).Failure?
  {
    hide Transact;
    assert JobOk(v, j);
    if Transact(v, ev).Success? { ActionsNeedForce(v, ev, j); }
  }

  /** Once an engagement's revision has moved past the one an approval was signed at, or the approval
      was revoked, no later event ever acts under that approval again. */
  lemma StaleApprovalNeverActs(w: World, v: World, id: ApprovalId, ev: Event, j: JobId)
    requires Reachable(w) && Leads(w, v) && id in w.approvals && ActsOn(ev) == Some(j)
    requires Stale(w, id)
    requires j in v.jobs && v.jobs[j].approval == Some(id) && !Repeats(v, ev)
    ensures Transact(v, ev).Failure?
  {
    hide Reachable, Leads, Transact, Later, Inv;
    ReachableLater(w, v);
    StaleStaysStale(w, v, id);
    StaleRefuses(v, id, ev, j);
  }

  /** Pulling the brake, even if it is released at once, ends every approval signed before. */
  lemma BrakeEndsApprovals(w: World, e: EngagementId, id: ApprovalId)
    requires Reachable(w) && e in w.engagements && id in w.approvals && w.approvals[id].engagement == e
    requires !w.engagements[e].authority.stopWork
    ensures EngageStopWork(w, e).Success? && ReleaseStopWork(EngageStopWork(w, e).value.world, e).Success?
    ensures var v := ReleaseStopWork(EngageStopWork(w, e).value.world, e).value.world;
            v.engagements[e].authority == w.engagements[e].authority && id in v.approvals && Stale(v, id)
  {
    hide Reachable, Leads;
    ReachableInv(w);
    assert ApprovalOk(w, id);
  }

  // ----- The brake -----

  /** While the brake is on, nothing in the engagement is active. */
  lemma BrakeStopsEverything(w: World, e: EngagementId)
    requires Reachable(w) && e in w.engagements && w.engagements[e].authority.stopWork
    ensures NothingActive(w, e)
  {
    hide Reachable, Leads;
    ReachableInv(w);
    BrakeHolds(w, e);
  }

  /** An execution caught by the brake never becomes active again and never completes, whatever
      happens later, in either protocol, released or not. */
  lemma BrakedNeverCompletes(w: World, v: World, e: EngagementId, j: JobId)
    requires Reachable(w) && EngageStopWork(w, e).Success? && Leads(EngageStopWork(w, e).value.world, v)
    requires j in w.executions && j in w.jobs && w.jobs[j].engagement == e && !w.executions[j].phase.Ended?
    requires j in v.jobs
    ensures j in v.executions && v.executions[j].phase != Active && v.executions[j].phase != Ended(Completed)
  {
    hide Reachable, Leads;
    var u := EngageStopWork(w, e).value.world;
    ReachableInv(w);
    StopWorkKeeps(w, e);
    LeadsLater(u, v);
    assert JobLater(u, v, j);
    InvNamed(u);
  }

  // ----- One attempt per job -----

  /** A job that has had an execution keeps exactly that one, never returns to pending, gains no contract,
      and can never be claimed again. */
  lemma OneAttempt(w: World, v: World, j: JobId)
    requires Reachable(w) && Leads(w, v) && j in w.jobs && j in w.executions && j in v.jobs
    ensures v.jobs[j].status != Pending && j in v.executions && ExecutionLater(w.executions[j], v.executions[j])
    ensures j in v.contracts <==> j in w.contracts
    ensures j in v.contracts ==>
              v.contracts[j].id == w.contracts[j].id && v.contracts[j].approval == w.contracts[j].approval
    ensures forall control, now, system :: LegacyClaim(v, j, control, now, system).Failure?
    ensures forall q: ClaimRequest :: q.job == j ==> ManagedClaim(v, q).Failure?
  {
    hide Reachable, Leads;
    ReachableLater(w, v);
    AttemptKept(w, v, j);
  }

  lemma AttemptKept(w: World, v: World, j: JobId)
    requires Inv(w) && Inv(v) && Later(w, v) && j in w.jobs && j in w.executions && j in v.jobs
    ensures v.jobs[j].status != Pending && j in v.executions && ExecutionLater(w.executions[j], v.executions[j])
    ensures j in v.contracts <==> j in w.contracts
    ensures j in v.contracts ==>
              v.contracts[j].id == w.contracts[j].id && v.contracts[j].approval == w.contracts[j].approval
  {
    assert JobLater(w, v, j) && ContractLater(w, v, j) && JobOk(w, j) && ExecutionOk(w, j) && JobOk(v, j);
    assert ExecutionOk(v, j);
  }

  /** The contracts that cite an approval. */
  function Citing(w: World, id: ApprovalId): set<JobId> {
    set j | j in w.contracts && w.contracts[j].approval == id
  }

  /** An approval's counter is the number of contracts that cite it, within what was signed. */
  lemma IssuedCountsContracts(w: World, id: ApprovalId)
    requires Reachable(w) && id in w.approvals
    ensures w.approvals[id].issued == |Citing(w, id)| <= w.approvals[id].envelope.context.maxExecutions
  {
    hide Reachable, Leads;
    ReachableInv(w);
    assert ApprovalOk(w, id);
    var a := w.approvals[id];
    forall j | j in Citing(w, id) ensures j == a.job { assert ContractOk(w, j); }
    assert Citing(w, id) == if a.job in w.contracts && w.contracts[a.job].approval == id then {a.job} else {};
  }

  /** A launch is acknowledged at most once: after one commits, no later one for that job does. */
  lemma ConsumedOnce(w: World, v: World, q: LiveRequest, sha: Digest, again: LiveRequest, sha': Digest)
    requires Reachable(w) && Consume(w, q, sha).Success? && Leads(Consume(w, q, sha).value.world, v)
    requires again.job == q.job
    ensures Consume(v, again, sha').Failure?
  {
    hide Reachable, Leads;
    var u := Consume(w, q, sha).value.world;
    ReachableInv(w);
    ConsumeKeeps(w, q, sha);
    LeadsLater(u, v);
    assert u.contracts[q.job].consumed && ContractLater(u, v, q.job);
    ConsumedRefused(v, again, sha');
  }

  lemma ConsumedRefused(v: World, q: LiveRequest, sha: Digest)
    requires q.job in v.contracts && v.contracts[q.job].consumed
    ensures Consume(v, q, sha).Failure?
  {
  }

  // ----- Receipts -----

  /** Results and stops exist only for consumed contracts; a contract never has both a stop and a
      finished result; whichever terminal receipt exists is the execution's final phase, capacity released. */
  lemma ReceiptsExclusive(w: World, c: ContractId)
    requires Reachable(w)
    ensures c in w.results ==> ContractNamed(w, w.results[c].job, w.results[c].binding)
    ensures c in w.stops ==> ContractNamed(w, w.stops[c].job, w.stops[c].binding)
    ensures c in w.results && w.results[c].outcome.Some? ==>
              c !in w.stops && EndedAs(w, w.results[c].job, w.results[c].outcome.value)
    ensures c in w.stops ==> EndedAs(w, w.stops[c].job, w.stops[c].outcome)
  {
    hide Reachable, Leads;
    ReachableInv(w);
    if c in w.results { assert ResultOk(w, c); ReleasedAtEnd(w, w.results[c].job); }
    if c in w.stops { assert StopOk(w, c); ReleasedAtEnd(w, w.stops[c].job); }
  }

  /** Unless the job was deleted, its execution ended this way and holds no capacity. */
  predicate EndedAs(w: World, j: JobId, outcome: Outcome) {
    j in w.jobs ==> j in w.executions && w.executions[j].phase == Ended(outcome) && !w.executions[j].reserved
  }

  lemma ReleasedAtEnd(w: World, j: JobId)
    requires Inv(w)
    ensures j in w.executions && w.executions[j].phase.Ended? ==> !w.executions[j].reserved
  {
    assert j in w.executions ==> ExecutionOk(w, j);
  }

  /** What the owner check of the result and stop adapters establishes in a reachable store. */
  lemma OwnedRows(w: World, o: OwnedRequest)
    requires Inv(w) && OwnedConsumed(w, o).Pass?
    ensures o.job in w.jobs && o.job in w.executions && ContractNamed(w, o.job, o.binding)
    ensures var x := w.executions[o.job]; x.seconds > 0 && (x.phase.Ended? <==> !x.reserved)
    ensures w.jobs[o.job].startedAt.Some?
    ensures RetainedResult(w, o).Success? && RetainedStop(w, o).Success?
    ensures RetainedResult(w, o).value.Some? && w.results[o.binding.contract].outcome.Some? ==>
              CompletionAck(w.results[o.binding.contract], w.executions[o.job]).Success?
    ensures RetainedStop(w, o).value.Some? ==> StopAck(w.stops[o.binding.contract], w.executions[o.job]).Success?
  {
    var j, c := o.job, o.binding.contract;
    assert JobOk(w, j) && ExecutionOk(w, j) && ContractOk(w, j);
    ReceiptsFiled(w);
    if c in w.results { assert ResultOk(w, c); }
    if c in w.stops { assert StopOk(w, c); }
  }

  lemma OwnerBindingHolds(w: World, o: OwnedRequest)
    requires Inv(w)
    ensures OwnedConsumed(w, o) != Refuse(ResultApprovalBinding)
  {
    if o.job in w.jobs && o.job in w.contracts {
      assert JobOk(w, o.job) && ContractOk(w, o.job);
    }
  }

  predicate RecordsDisagree(r: Reason) {
    || r == CompletionInconsistent || r == StopInconsistent || r == ResultBindingChanged || r == StopBindingChanged
    || r == ResultApprovalBinding || r == AllocationRequired
  }

  /** What the records of an owned, consumed contract agree on. */
  predicate RecordsAgree(w: World, o: OwnedRequest) {
    && OwnedConsumed(w, o) != Refuse(ResultApprovalBinding)
    && (OwnedConsumed(w, o).Pass? ==>
          && o.job in w.jobs && o.job in w.executions
          && RetainedResult(w, o).Success? && RetainedStop(w, o).Success?
          && (w.executions[o.job].phase.Ended? <==> !w.executions[o.job].reserved)
          && w.executions[o.job].seconds > 0 && w.jobs[o.job].startedAt.Some?
          && (RetainedResult(w, o).value.Some? && RetainedResult(w, o).value.value.outcome.Some? ==>
                CompletionAck(RetainedResult(w, o).value.value, w.executions[o.job]).Success?)
          && (RetainedStop(w, o).value.Some? ==> StopAck(RetainedStop(w, o).value.value, w.executions[o.job]).Success?))
  }

  lemma RecordsAlwaysAgree(w: World, o: OwnedRequest)
    requires Inv(w)
    ensures RecordsAgree(w, o)
  {
    OwnerBindingHolds(w, o);
    if OwnedConsumed(w, o).Pass? { OwnedRows(w, o); }
  }

  predicate ProjectionRefusal(r: Reason) {
    || r == RevisionChanged || r == ApprovalRefused || r == PendingJobRequired || r == OwnerRequired
    || r == StopWorkActive
    || r == ActiveAuthorityRequired || r == CaseBindingRequired || r == ScopeDenied || r == WindowExceeded
  }

  /** Every way permission to act can be refused; none is about records or capacity. */
  predicate AboutPermission(r: Reason) {
    || ProjectionRefusal(r) || r == ApprovalUnavailable || r == EnrollmentRequired || r == ApprovalContextChanged
    || r == ApprovalNotLive || r == LeaseNotLive || r == PreflightFailed
  }

  predicate OwnerRefusal(r: Reason) {
    r == NotFound || r == ConsumedContractRequired
  }

  /** Every way the three adapters can refuse while the records of a contract agree. */
  predicate CompletionRefusal(r: Reason) {
    || OwnerRefusal(r) || r == ResultReceiptRequired || r == DifferentCompletion || r == ForeignCompletion
    || r == ClockRollback
    || AboutPermission(r)
  }

  predicate StopRefusal(r: Reason) {
    OwnerRefusal(r) || r == DifferentStop || r == ResultStarted || r == ClockRollback
  }

  predicate SubmissionRefusal(r: Reason) {
    || OwnerRefusal(r) || r == ResultSize || r == InvalidResult || r == ResultCaseMismatch || r == DifferentResult
    || r == ForeignReceipt || r == ClockRollback
  }

  lemma NoneAboutRecords(r: Reason)
    requires CompletionRefusal(r) || StopRefusal(r) || SubmissionRefusal(r)
    ensures !RecordsDisagree(r) && r != ReservationRequired
  {
  }

  lemma ProjectionRefusals(w: World, j: JobId, actor: UserId, authorization: AuthorizationId, caseHash: Digest,
                           signed: Context, revision: nat, status: Status, inScope: bool)
    requires Known(w, j) && Projection(w, j, actor, authorization, caseHash, signed, revision, status, inScope).Failure?
    ensures ProjectionRefusal(Projection(w, j, actor, authorization, caseHash, signed, revision, status, inScope).error)
  {
  }

  lemma EnvelopeRefusals(e: Envelope, context: Context, owner: UserId, t: Instant)
    requires CheckEnvelope(e, context, owner, t).Refuse?
    ensures var r := CheckEnvelope(e, context, owner, t).reason;
            r == ApprovalRefused || r == ApprovalContextChanged || r == ApprovalNotLive
  {
    hide WithinValidity;
  }

  lemma PermissionRefusals(w: World, j: JobId, facts: Facts, status: Status, t: Instant)
    requires Known(w, j) && ClaimPermission(w, j, facts, status, t).Failure?
    ensures AboutPermission(ClaimPermission(w, j, facts, status, t).error)
  {
    hide Projection, CheckEnvelope, ProjectionRefusal;
    var id := w.jobs[j].approval;
    if id.Some? && id.value in w.approvals {
      var a := w.approvals[id.value];
      var step := Projection(w, j, a.owner, a.authorization, a.caseHash, a.envelope.context,
                             a.envelope.context.revision, status, facts.inScope);
      if step.Failure? {
        ProjectionRefusals(w, j, a.owner, a.authorization, a.caseHash, a.envelope.context, a.envelope.context.revision,
                           status, facts.inScope);
      } else if CheckEnvelope(a.envelope, step.value, a.owner, t).Refuse? {
        EnvelopeRefusals(a.envelope, step.value, a.owner, t);
        assert ProjectionRefusal(ApprovalRefused) by { RefusedIsRefusal(); }
      }
    }
  }

  lemma RefusedIsRefusal()
    ensures ProjectionRefusal(ApprovalRefused)
  {
  }

  lemma CompletableRefusals(w: World, j: JobId, instant: Instant, rechecked: Instant)
    requires Known(w, j) && j in w.executions && w.jobs[j].approval.Some? && w.jobs[j].approval.value in w.approvals
    requires w.jobs[j].startedAt.Some? && w.executions[j].seconds > 0
             && CheckCompletable(w, j, instant, rechecked).Refuse?
    ensures AboutPermission(CheckCompletable(w, j, instant, rechecked).reason)
  {
    hide Ceiling, CheckEnvelope, ProjectionRefusal;
    var a := w.approvals[w.jobs[j].approval.value];
    if CheckEnvelope(a.envelope, a.envelope.context, a.owner, rechecked).Refuse? {
      EnvelopeRefusals(a.envelope, a.envelope.context, a.owner, rechecked);
      RefusedIsRefusal();
    }
  }

  lemma CompletionRefusals(w: World, q: FinishRequest, row: ManagedResult)
    requires RecordsAgree(w, q.owned) && OwnedConsumed(w, q.owned).Pass? && MayComplete(w, q, row).Refuse?
    ensures AboutPermission(MayComplete(w, q, row).reason)
  {
    OwnedRowsExist(w, q.owned);
    hide ClaimPermission, CheckCompletable, OwnedConsumed, RetainedResult, RetainedStop, CompletionAck, StopAck;
    var j := q.owned.job;
    if ClaimPermission(w, j, q.facts, Running, q.permitted).Failure? {
      PermissionRefusals(w, j, q.facts, Running, q.permitted);
    } else if CheckCompletable(w, j, Max(q.live, q.liveSystem), q.rechecked).Refuse? {
      CompletableRefusals(w, j, Max(q.live, q.liveSystem), q.rechecked);
    }
  }

  lemma OwnerRefusals(w: World, o: OwnedRequest)
    requires OwnedConsumed(w, o).Refuse? && OwnedConsumed(w, o) != Refuse(ResultApprovalBinding)
    ensures OwnerRefusal(OwnedConsumed(w, o).reason)
  {
  }

  /** The acknowledgement of a first completion always agrees with the execution it ended. */
  lemma FirstAckAgrees(w: World, q: FinishRequest, row: ManagedResult)
    requires q.owned.job in w.jobs && q.owned.job in w.executions
    ensures var closed := row.(outcome := Some(q.outcome), finishedAt := Some(q.finished));
            CompletionAck(closed, Terminated(w, q.owned.job, q.outcome, q.finished).executions[q.owned.job]).Success?
  {
  }

  lemma FirstFinishRefusals(w: World, q: FinishRequest, row: ManagedResult)
    requires RecordsAgree(w, q.owned) && OwnedConsumed(w, q.owned).Pass?
             && RetainedResult(w, q.owned) == Success(Some(row))
    requires row.outcome.None? && Finish(w, q).Failure?
    ensures CompletionRefusal(Finish(w, q).error)
  {
    hide MayComplete, CheckCompletable, ClaimPermission, OwnedConsumed, RetainedResult, RetainedStop, CompletionAck;
    hide StopAck;
    hide AboutPermission;
    var j := q.owned.job;
    OwnedRowsExist(w, q.owned);
    FirstAckAgrees(w, q, row);
    if MayComplete(w, q, row).Refuse? { CompletionRefusals(w, q, row); }
    if CheckCompletable(w, j, Max(q.final, q.finalSystem), q.finalRechecked).Refuse? {
      CompletableRefusals(w, j, Max(q.final, q.finalSystem), q.finalRechecked);
    }
  }

  /** While its records agree, a finish refuses only for its owner, its receipt, its permission or the clock. */
  lemma FinishRefusals(w: World, q: FinishRequest)
    requires RecordsAgree(w, q.owned) && Finish(w, q).Failure?
    ensures CompletionRefusal(Finish(w, q).error)
  {
    hide MayComplete, CheckCompletable, ClaimPermission, OwnedConsumed, RetainedResult, RetainedStop, CompletionAck;
    hide StopAck;
    hide AboutPermission;
    if OwnedConsumed(w, q.owned).Refuse? {
      OwnerRefusals(w, q.owned);
    } else if RetainedResult(w, q.owned).value.Some? && RetainedResult(w, q.owned).value.value.outcome.None? {
      FirstFinishRefusals(w, q, RetainedResult(w, q.owned).value.value);
    }
  }

  /** So it never refuses for disagreement, nor for missing capacity. */
  lemma FinishNeverInconsistent(w: World, q: FinishRequest)
    requires RecordsAgree(w, q.owned) && Finish(w, q).Failure?
    ensures !RecordsDisagree(Finish(w, q).error) && Finish(w, q).error != ReservationRequired
  {
    FinishRefusals(w, q);
    hide Finish, RecordsAgree, RecordsDisagree, CompletionRefusal;
    NoneAboutRecords(Finish(w, q).error);
  }

  /** A stop report refuses only for its owner, for what is already stored, or for the clock; capacity is
      missing only when the execution has already ended. */
  lemma StopRefusals(w: World, q: StopRequest)
    requires RecordsAgree(w, q.owned) && ReportStop(w, q).Failure?
    ensures var e := ReportStop(w, q).error;
            || StopRefusal(e)
            || (e == ReservationRequired && q.owned.job in w.executions && w.executions[q.owned.job].phase.Ended?)
  {
    hide OwnedConsumed, RetainedResult, RetainedStop, CompletionAck, CauseOutcome;
    if OwnedConsumed(w, q.owned).Refuse? {
      OwnerRefusals(w, q.owned);
    } else if RetainedStop(w, q.owned).value.None? {
      OwnedRowsExist(w, q.owned);
      var j, row := q.owned.job, ManagedStop(q.owned.job, q.owned.binding, CauseOutcome(q.cause), q.cause, q.finished);
      assert StopAck(row, Terminated(w, j, row.outcome, q.finished).executions[j]).Success?;
    }
  }

  lemma StopNeverInconsistent(w: World, q: StopRequest)
    requires RecordsAgree(w, q.owned) && ReportStop(w, q).Failure?
    ensures !RecordsDisagree(ReportStop(w, q).error)
    ensures ReportStop(w, q).error == ReservationRequired ==>
              q.owned.job in w.executions && w.executions[q.owned.job].phase.Ended?
  {
    StopRefusals(w, q);
    hide ReportStop, RecordsAgree, RecordsDisagree, StopRefusal;
    if StopRefusal(ReportStop(w, q).error) { NoneAboutRecords(ReportStop(w, q).error); }
    assert !RecordsDisagree(ReservationRequired) by { CapacityIsNotRecords(); }
  }

  lemma CapacityIsNotRecords()
    ensures !RecordsDisagree(ReservationRequired)
  {
  }

  lemma OwnedIsKnown(w: World, o: OwnedRequest)
    requires OwnedConsumed(w, o).Pass?
    ensures Known(w, o.job)
  {
  }

  lemma StoreRefusals(w: World, j: JobId, u: Upload)
    requires Known(w, j) && j !in w.receipts && StoreResult(w, j, u).Failure?
    ensures StoreResult(w, j, u).error == ResultCaseMismatch
  {
  }

  lemma SubmitWithoutOwner(w: World, q: SubmitRequest)
    requires OwnedConsumed(w, q.owned).Refuse?
    ensures Submit(w, q) == Failure(OwnedConsumed(w, q.owned).reason)
  {
    hide OwnedConsumed, StoreResult, RetainedResult;
  }

  /** A submission refuses only for its owner, for what it carries, for what is already stored, or for the clock. */
  lemma SubmissionRefusals(w: World, q: SubmitRequest)
    requires RecordsAgree(w, q.owned) && Submit(w, q).Failure?
    ensures SubmissionRefusal(Submit(w, q).error)
  {
    hide StoreResult, RetainedResult, RetainedStop, OwnedConsumed, CompletionAck, StopAck, Min;
    if OwnedConsumed(w, q.owned).Refuse? {
      OwnerRefusals(w, q.owned);
      SubmitWithoutOwner(w, q);
    } else {
      OwnedIsKnown(w, q.owned);
      var j := q.owned.job;
      if j !in w.receipts && StoreResult(w, j, q.upload).Failure? { StoreRefusals(w, j, q.upload); }
    }
  }

  lemma SubmitNeverInconsistent(w: World, q: SubmitRequest)
    requires RecordsAgree(w, q.owned) && Submit(w, q).Failure?
    ensures !RecordsDisagree(Submit(w, q).error)
  {
    SubmissionRefusals(w, q);
    hide Submit, RecordsAgree, RecordsDisagree, SubmissionRefusal;
    NoneAboutRecords(Submit(w, q).error);
  }

  /** In no reachable store do the adapters refuse because retained records disagree. */
  lemma InconsistencyUnreachable(w: World, o: OwnedRequest)
    requires Reachable(w)
    ensures forall q: FinishRequest :: q.owned == o && Finish(w, q).Failure? ==>
              !RecordsDisagree(Finish(w, q).error) && Finish(w, q).error != ReservationRequired
    ensures forall q: StopRequest :: q.owned == o && ReportStop(w, q).Failure? ==>
                                       !RecordsDisagree(ReportStop(w, q).error)
    ensures forall q: SubmitRequest :: q.owned == o && Submit(w, q).Failure? ==> !RecordsDisagree(Submit(w, q).error)
  {
    hide Reachable, Leads;
    ReachableInv(w);
    RecordsAlwaysAgree(w, o);
    forall q: FinishRequest | q.owned == o && Finish(w, q).Failure?
      ensures !RecordsDisagree(Finish(w, q).error)
              && Finish(w, q).error != ReservationRequired { FinishNeverInconsistent(w, q); }
    forall q: StopRequest | q.owned == o && ReportStop(w, q).Failure? ensures !RecordsDisagree(ReportStop(w, q).error) {
      StopNeverInconsistent(w, q);
    }
    forall q: SubmitRequest | q.owned == o && Submit(w, q).Failure? ensures !RecordsDisagree(Submit(w, q).error) {
      SubmitNeverInconsistent(w, q);
    }
  }

  /** A stop never says completed. */
  lemma StopsNeverComplete(w: World)
    requires RowsOk(w)
    ensures forall c :: c in w.stops ==> w.stops[c].outcome != Completed
  {
    forall c | c in w.stops ensures w.stops[c].outcome != Completed { assert StopOk(w, c); }
  }

  lemma ResultsWellKept(w: World)
    requires RowsOk(w)
    ensures forall c :: c in w.results ==> ResultOk(w, c)
  {
  }

  /** A managed job that ran and is done was launched, and left a stored result finished as completed. */
  lemma DoneLeavesResult(w: World, j: JobId)
    requires Reachable(w) && j in w.jobs && j in w.executions && Managed(w.jobs[j]) && w.jobs[j].status == Done
    ensures w.executions[j].phase == Ended(Completed) && j in w.contracts && w.contracts[j].consumed
    ensures var c := w.contracts[j].id;
            c in w.results && w.results[c].job == j && w.results[c].outcome == Some(Completed)
            && !w.results[c].preflightFailed && c !in w.stops
  {
    hide Reachable, Leads;
    ReachableInv(w);
    StopsNeverComplete(w);
    ResultsWellKept(w);
    ReceiptsFiled(w);
    assert ExecutionOk(w, j);
  }
}
