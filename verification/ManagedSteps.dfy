/** The managed adapters: signed approvals, one-shot contracts, results and stops.

  Each function is the part of an operation that runs inside its database transaction. Every call of
  the operation's clock is a separate sample, in the order taken: nothing says samples are ordered.
 */
module ManagedSteps {
  import opened Wrappers
  import opened Records
  import opened Budgets
  import opened JobSteps

  /** What the enrollment row and the scope rows say: the presented key, principal and runner are an
      unrevoked enrollment of the approval's owner, and every planned request is inside the scope. */
  datatype Facts = Facts(enrolled: bool, inScope: bool)

  // ----- The persisted clock -----

  /** Take one clock sample; time already observed is never undone. */
  function ObserveClock(w: World, t: Instant): Step {
    var ordered := w.observed.Some? ==> w.observed.value <= t;
    :- Need(ordered, ClockRollback);
    Committed(w.(observed := Some(t)), Plain)
  }

  /** The final clock check inside a transaction; here the clock row must already exist. */
  function LockedTime(w: World, t: Instant): Result<World, Reason> {
    var ordered := w.observed.Some? && w.observed.value <= t;
    :- Need(ordered, ClockRollback);
    Success(w.(observed := Some(t)))
  }

  // ----- Permission -----

  predicate WithinValidity(e: Envelope, t: Instant) {
    && e.approvedAt <= t
    && e.context.notBefore <= t < e.context.expiresAt
    && e.context.testingStart <= t < e.context.testingEnd
  }

  /** A presented approval, checked against the context the caller's facts require. */
  function CheckEnvelope(e: Envelope, context: Context, owner: UserId, t: Instant): Check<Reason> {
    if !(e.trusted && e.approver == owner) then Refuse(ApprovalRefused)
    else if e.context != context then Refuse(ApprovalContextChanged)
    else if !(WithinValidity(e, t) && 1 <= context.maxExecutions <= 1000) then Refuse(ApprovalNotLive)
    else Pass
  }

  /** Recompute the signed context from the facts as they stand now. */
  function Projection(w: World, j: JobId, actor: UserId, authorization: AuthorizationId, caseHash: Digest,
                      signed: Context, revision: nat, status: Status, inScope: bool): Result<Context, Reason>
    requires Known(w, j)
  {
    var job := w.jobs[j];
    var g := w.engagements[job.engagement];
    :- Need(revision == g.revision, RevisionChanged);
    :- Need(1 <= signed.maxExecutions <= 1000 && 1 <= signed.maxDuration <= 86400
            && 1 <= signed.maxArtifact <= 1_073_741_824,
            ApprovalRefused);
    :- Need(job.status == status && job.tool == Gate, PendingJobRequired);
    :- Need(actor == g.owner, OwnerRequired);
    :- Need(!g.authority.stopWork, StopWorkActive);
    :- Need(authorization in g.authority.grants
            && g.authority.grants[authorization].status == "active", ActiveAuthorityRequired);
    :- Need(job.testCase.Some? && job.testCase.value in g.cases
            && g.cases[job.testCase.value].hash == caseHash, CaseBindingRequired);
    :- Need(signed.notBefore < signed.expiresAt, ApprovalRefused);
    :- Need(inScope, ScopeDenied);
    var grant := g.authority.grants[authorization];
    var end := if grant.windowEnd.Some? then grant.windowEnd.value else signed.expiresAt;
    :- Need(signed.expiresAt <= end, WindowExceeded);
    var start := if grant.windowStart.Some? then grant.windowStart.value else signed.notBefore;
    Success(signed.(engagement := job.engagement, job := j, revision := revision, authority := g.authority,
            caseHash := caseHash, testingStart := start, testingEnd := end))
  }

  /** Current permission to act under the job's registered approval. */
  function ClaimPermission(w: World, j: JobId, facts: Facts, status: Status, t: Instant): Result<Approval, Reason>
    requires Known(w, j)
  {
    var job := w.jobs[j];
    :- Need(job.approval.Some? && job.approval.value in w.approvals, ApprovalUnavailable);
    var a := w.approvals[job.approval.value];
    :- Need(!a.revoked && a.job == j && a.engagement == job.engagement, ApprovalUnavailable);
    :- Need(facts.enrolled, EnrollmentRequired);
    var context :- Projection(w, j, a.owner, a.authorization, a.caseHash, a.envelope.context,
                              a.envelope.context.revision, status, facts.inScope);
    :- CheckEnvelope(a.envelope, context, a.owner, t);
    Success(a)
  }

  // ----- Registering and revoking -----

  datatype RegisterRequest = RegisterRequest(job: JobId, actor: UserId, authorization: AuthorizationId,
                                             caseHash: Digest,
                                             envelope: Envelope, facts: Facts,
                                             received: Instant, reviewed: Instant, locked: Instant, signedOff: Instant)

  function Register(w: World, q: RegisterRequest): Step {
    var found := Known(w, q.job);
    :- Need(found, NotFound);
    var job := w.jobs[q.job];
    var id := q.envelope.id;
    :- CheckEnvelope(q.envelope, q.envelope.context, q.actor, q.received);
    if id in w.approvals then
      :- Need(w.approvals[id].job == q.job && job.approval == Some(id)
              && w.approvals[id].envelope == q.envelope, ApprovalIdReused);
      :- Need(!w.approvals[id].revoked, ApprovalUnavailable);
      var timed :- LockedTime(w, q.locked);
      Committed(timed, Plain)
    else
      :- Need(job.status == Pending, PendingJobRequired);
      :- Need(q.facts.enrolled, EnrollmentRequired);
      var context :- Projection(w, q.job, q.actor, q.authorization, q.caseHash, q.envelope.context,
                                w.engagements[job.engagement].revision, Pending, q.facts.inScope);
      :- CheckEnvelope(q.envelope, context, q.actor, q.reviewed);
      var row := Approval(q.job, job.engagement, q.authorization, q.actor, q.envelope, q.caseHash, 0, false);
      var marked := WithJob(w, q.job, job.(approval := Some(id), contractRequired := true));
      var timed :- LockedTime(marked.(approvals := w.approvals[id := row]), q.locked);
      :- CheckEnvelope(q.envelope, context, q.actor, q.signedOff);
      Committed(timed, Plain)
  }

  function Revoke(w: World, j: JobId, actor: UserId, locked: Instant): Step {
    var found := Known(w, j);
    :- Need(found, NotFound);
    var id := w.jobs[j].approval;
    :- Need(id.Some? && id.value in w.approvals && w.approvals[id.value].owner == actor, OwnerRequired);
    var timed :- LockedTime(w, locked);
    Committed(timed.(approvals := w.approvals[id.value := w.approvals[id.value].(revoked := true)]), Plain)
  }

  // ----- Claiming -----

  datatype ClaimRequest = ClaimRequest(job: JobId, control: Control, facts: Facts,
                                       contract: ContractId, attempt: int, sha: Digest,
                                       permitted: Instant, locked: Instant, started: Instant, system: Instant,
                                       issued: Instant, relocked: Instant, final: Instant)

  predicate ContractIdTaken(w: World, id: ContractId) {
    exists j :: j in w.contracts && w.contracts[j].id == id
  }

  function WithContract(w: World, j: JobId, c: Contract): World
    requires c.approval in w.approvals
  {
    var a := w.approvals[c.approval].(issued := c.ordinal);
    w.(contracts := w.contracts[j := c], approvals := w.approvals[c.approval := a])
  }

  /** The one contract of this attempt, numbered within its approval, and permission asked for once more. */
  function IssueContract(w: World, q: ClaimRequest, id: ApprovalId): (r: Result<World, Reason>)
    requires id in w.approvals
    ensures r.Success? ==> q.job in r.value.contracts
  {
    var a := w.approvals[id];
    var ordinal := a.issued + 1;
    :- Need(ordinal <= a.envelope.context.maxExecutions, ApprovalExhausted);
    :- Need(q.job !in w.contracts, AttemptAlreadyIssued);
    :- CheckEnvelope(a.envelope, a.envelope.context, a.owner, q.issued);
    :- Need(!ContractIdTaken(w, q.contract), AlreadyExists);
    var timed :- LockedTime(WithContract(w, q.job, Contract(q.contract, id, ordinal, q.attempt, 1, q.sha, false)),
                            q.relocked);
    :- CheckEnvelope(a.envelope, a.envelope.context, a.owner, q.final);
    Success(timed)
  }

  function ManagedClaim(w: World, q: ClaimRequest): Step {
    var found := Known(w, q.job);
    :- Need(found, NotFound);
    var job := w.jobs[q.job];
    var g := w.engagements[job.engagement];
    :- Need(job.status == Pending, PendingJobRequired);
    var a :- ClaimPermission(w, q.job, q.facts, Pending, q.permitted);
    :- Need(q.control.concurrency && q.control.binding.Some? && q.control.seconds.Some?
            && q.control.seconds.value <= a.envelope.context.maxDuration, ManagedBudgetsRequired);
    var timed :- LockedTime(w, q.locked);
    :- CheckCapacity(timed, job.engagement, true);
    var snapshot := g.cases[job.testCase.value];
    var targets :- ChargeTargets(g, job.tool, Some(snapshot), q.control.binding);
    var seconds :- AllocateDuration(g, q.control.seconds);
    var started := Started(timed, q.job, Some(snapshot), q.started, targets, seconds);
    var x := NewExecution(q.control, targets, seconds, q.system);
    var issued :- IssueContract(WithExecution(started, q.job, x), q, job.approval.value);
    Committed(issued, Issued(issued.contracts[q.job], x))
  }

  // ----- Acting on a live contract: check, renew, consume -----

  datatype Clock = Clock(permitted: Instant, locked: Instant, system: Instant, rechecked: Instant,
                         instant: Instant, instantSystem: Instant, relocked: Instant, last: Instant,
                         lastSystem: Instant)

  datatype LiveRequest = LiveRequest(job: JobId, holder: Holder, contract: ContractId, attempt: int, fence: nat,
                                     facts: Facts, clock: Clock)

  /** The shared gate: owned execution, matching contract, current permission, live lease. */
  function Authorize(w: World, q: LiveRequest): Result<World, Reason> {
    var found := Owned(w, q.job, q.holder);
    :- Need(found, NotFound);
    :- Need(q.job in w.contracts && w.contracts[q.job].id == q.contract && w.contracts[q.job].attempt == q.attempt
            && w.contracts[q.job].fence == q.fence, ContractFenceRequired);
    var a :- ClaimPermission(w, q.job, q.facts, Running, q.clock.permitted);
    var timed :- LockedTime(w, q.clock.locked);
    var x := w.executions[q.job];
    :- Need(x.phase == Active && x.expiresAt > q.clock.system, LeaseNotLive);
    :- CheckEnvelope(a.envelope, a.envelope.context, a.owner, q.clock.rechecked);
    Success(timed)
  }

  /** The approval a job's permission was granted under; meaningful once `Authorize` succeeds. */
  function JobContext(w: World, j: JobId): Context
    requires j in w.jobs && w.jobs[j].approval.Some? && w.jobs[j].approval.value in w.approvals
  {
    w.approvals[w.jobs[j].approval.value].envelope.context
  }

  function CheckLive(w: World, q: LiveRequest): Step {
    var timed :- Authorize(w, q);
    Committed(timed, Permitted(JobContext(w, q.job).revision))
  }

  function Earliest(first: Instant, rest: seq<Instant>): Instant {
    if rest == [] then first else Min(Earliest(first, rest[..|rest| - 1]), rest[|rest| - 1])
  }

  /** The earliest of every ceiling on an execution: approval and window ends, each credential
      grant, and the start plus the smaller of the allocated and the approved duration. */
  function Ceiling(context: Context, startedAt: Instant, seconds: nat): Instant {
    Earliest(Min(Min(context.expiresAt, context.testingEnd), startedAt + SECOND * Min(seconds, context.maxDuration)),
             context.grants)
  }

  /** Whole seconds of a signed duration, dropping the fraction toward zero. */
  function WholeSeconds(d: int): int {
    if d >= 0 then d / SECOND else -((-d) / SECOND)
  }

  function Renew(w: World, q: LiveRequest): Step {
    var timed :- Authorize(w, q);
    var job, x := w.jobs[q.job], w.executions[q.job];
    var instant := Max(q.clock.instant, q.clock.instantSystem);
    :- Need(job.startedAt.Some? && x.seconds > 0, AllocationRequired);
    var lease := Min(LEASE / SECOND,
                     WholeSeconds(Ceiling(JobContext(w, q.job), job.startedAt.value, x.seconds) - instant));
    :- Need(lease > 0 && x.expiresAt > instant, LeaseNotLive);
    var expiresAt := instant + SECOND * lease;
    var retimed :- LockedTime(WithExecution(timed, q.job, x.(expiresAt := expiresAt)), q.clock.relocked);
    :- Need(expiresAt > Max(q.clock.last, q.clock.lastSystem), LeaseNotLive);
    Committed(retimed, Renewed(lease, expiresAt))
  }

  function Consume(w: World, q: LiveRequest, sha: Digest): Step {
    var timed :- Authorize(w, q);
    var c, x := w.contracts[q.job], w.executions[q.job];
    :- Need(sha == c.sha, ContractBindingRequired);
    :- Need(!c.consumed, AlreadyConsumed);
    var retimed :- LockedTime(timed.(contracts := w.contracts[q.job := c.(consumed := true)]), q.clock.relocked);
    var a := w.approvals[w.jobs[q.job].approval.value];
    :- CheckEnvelope(a.envelope, a.envelope.context, a.owner, q.clock.instant);
    :- Need(x.expiresAt > Max(q.clock.last, q.clock.lastSystem), LeaseNotLive);
    Committed(retimed, Launched(Binding(c.id, c.attempt, c.fence, c.sha)))
  }

  // ----- Results, completion, stops -----

  datatype OwnedRequest = OwnedRequest(job: JobId, holder: Holder, binding: Binding)

  /** An owned execution whose contract was consumed, named by its full binding. */
  function OwnedConsumed(w: World, o: OwnedRequest): Check<Reason> {
    if !Owned(w, o.job, o.holder) then Refuse(NotFound)
    else
      var job := w.jobs[o.job];
      if !(job.tool == Gate && job.contractRequired && job.approval.Some? && o.job in w.contracts
           && w.contracts[o.job].consumed
           && o.binding == Binding(w.contracts[o.job].id, w.contracts[o.job].attempt, w.contracts[o.job].fence,
                                   w.contracts[o.job].sha))
      then Refuse(ConsumedContractRequired)
      else
        var id := w.contracts[o.job].approval;
        Need(id in w.approvals && job.approval == Some(id) && w.approvals[id].job == o.job, ResultApprovalBinding)
  }

  function RetainedResult(w: World, o: OwnedRequest): Result<Option<ManagedResult>, Reason> {
    if o.binding.contract !in w.results then Success(None)
    else
      var row := w.results[o.binding.contract];
      :- Need(row.job == o.job && row.binding == o.binding, ResultBindingChanged);
      Success(Some(row))
  }

  function ReceiptOf(row: ManagedResult): ResultReceipt {
    ResultReceipt(row.job, row.binding, row.artifact, row.caseHash)
  }

  datatype SubmitRequest = SubmitRequest(owned: OwnedRequest, size: nat, wellFormed: bool, artifact: Digest,
                                         upload: Upload, preflightFailed: bool, locked: Instant)

  function Submit(w: World, q: SubmitRequest): Step {
    var j := q.owned.job;
    :- OwnedConsumed(w, q.owned);
    var job := w.jobs[j];
    var a := w.approvals[job.approval.value];
    :- Need(0 < q.size <= Min(MAX_RESULT_BYTES, a.envelope.context.maxArtifact), ResultSize);
    :- Need(q.wellFormed, InvalidResult);
    :- Need(job.snapshot.Some? && q.upload.caseHash == Some(job.snapshot.value.hash)
            && job.snapshot.value.hash == a.caseHash
            && q.upload.ref == Some(job.snapshot.value.ref), ResultCaseMismatch);
    var retained :- RetainedResult(w, q.owned);
    if retained.Some? then
      :- Need(retained.value.artifact == q.artifact && retained.value.caseHash == a.caseHash, DifferentResult);
      Committed(w, Retained(ReceiptOf(retained.value)))
    else
      :- Need(j !in w.receipts, ForeignReceipt);
      var stored :- StoreResult(w, j, q.upload);
      var row := ManagedResult(j, q.owned.binding, q.artifact, a.caseHash, q.preflightFailed, None, None);
      var timed :- LockedTime(stored.world.(results := w.results[q.owned.binding.contract := row]), q.locked);
      Committed(timed, Retained(ReceiptOf(row)))
  }

  datatype FinishRequest = FinishRequest(owned: OwnedRequest, receipt: ResultReceipt, outcome: Outcome, facts: Facts,
                                         permitted: Instant, live: Instant, liveSystem: Instant, rechecked: Instant,
                                         finished: Instant, locked: Instant,
                                         final: Instant, finalSystem: Instant, finalRechecked: Instant)

  /** The completion gate at one instant: allocation, lease, every ceiling, and the signature's validity. */
  function CheckCompletable(w: World, j: JobId, instant: Instant, rechecked: Instant): Check<Reason>
    requires Known(w, j) && j in w.executions && w.jobs[j].approval.Some? && w.jobs[j].approval.value in w.approvals
  {
    var job, x, a := w.jobs[j], w.executions[j], w.approvals[w.jobs[j].approval.value];
    if !(job.startedAt.Some? && x.seconds > 0) then Refuse(AllocationRequired)
    else if !(x.expiresAt > instant && Ceiling(a.envelope.context, job.startedAt.value, x.seconds) > instant)
    then Refuse(LeaseNotLive)
    else CheckEnvelope(a.envelope, a.envelope.context, a.owner, rechecked)
  }

  function CompletionAck(row: ManagedResult, x: Execution): Result<Reply, Reason> {
    var agrees := row.outcome.Some? && x.phase == Ended(row.outcome.value) && !x.reserved;
    :- Need(agrees, CompletionInconsistent);
    Success(Completion(ReceiptOf(row), row.outcome.value))
  }

  function Finish(w: World, q: FinishRequest): Step {
    var j := q.owned.job;
    :- OwnedConsumed(w, q.owned);
    var x := w.executions[j];
    var retained :- RetainedResult(w, q.owned);
    :- Need(retained.Some? && ReceiptOf(retained.value) == q.receipt, ResultReceiptRequired);
    var row := retained.value;
    if row.outcome.Some? then
      :- Need(row.outcome.value == q.outcome, DifferentCompletion);
      var ack :- CompletionAck(row, x);
      Committed(w, ack)
    else
      :- Need(!x.phase.Ended?, ForeignCompletion);
      :- Need(x.reserved, ReservationRequired);
      :- MayComplete(w, q, row);
      var closed := row.(outcome := Some(q.outcome), finishedAt := Some(q.finished));
      var ended := Terminated(w, j, q.outcome, q.finished).(results := w.results[q.owned.binding.contract := closed]);
      var timed :- LockedTime(ended, q.locked);
      :- if q.outcome == Completed then CheckCompletable(w, j, Max(q.final, q.finalSystem), q.finalRechecked) else Pass;
      var ack :- CompletionAck(closed, timed.executions[j]);
      Committed(timed, ack)
  }

  /** Only success needs live permission; a failure or a cancellation is always accepted. */
  function MayComplete(w: World, q: FinishRequest, row: ManagedResult): Check<Reason>
    requires OwnedConsumed(w, q.owned).Pass?
  {
    if q.outcome != Completed then Pass
    else if row.preflightFailed then Refuse(PreflightFailed)
    else
      var permission := ClaimPermission(w, q.owned.job, q.facts, Running, q.permitted);
      if permission.Failure? then Refuse(permission.error)
      else if w.executions[q.owned.job].phase != Active then Refuse(LeaseNotLive)
      else CheckCompletable(w, q.owned.job, Max(q.live, q.liveSystem), q.rechecked)
  }

  datatype StopRequest = StopRequest(owned: OwnedRequest, cause: Cause, finished: Instant, locked: Instant)

  function RetainedStop(w: World, o: OwnedRequest): Result<Option<ManagedStop>, Reason> {
    if o.binding.contract !in w.stops then Success(None)
    else
      var row := w.stops[o.binding.contract];
      :- Need(row.job == o.job && row.binding == o.binding
              && row.outcome == CauseOutcome(row.cause), StopBindingChanged);
      Success(Some(row))
  }

  function StopAck(row: ManagedStop, x: Execution): Result<Reply, Reason> {
    var agrees := x.phase == Ended(row.outcome) && !x.reserved;
    :- Need(agrees, StopInconsistent);
    Success(Stopped(row.binding, row.outcome, row.cause))
  }

  function ReportStop(w: World, q: StopRequest): Step {
    var j := q.owned.job;
    :- OwnedConsumed(w, q.owned);
    var x := w.executions[j];
    var stop :- RetainedStop(w, q.owned);
    if stop.Some? then
      :- Need(stop.value.cause == q.cause, DifferentStop);
      var ack :- StopAck(stop.value, x);
      Committed(w, ack)
    else
      var result :- RetainedResult(w, q.owned);
      :- Need(result.None?, ResultStarted);
      :- Need(!x.phase.Ended? && x.reserved, ReservationRequired);
      var row := ManagedStop(j, q.owned.binding, CauseOutcome(q.cause), q.cause, q.finished);
      var ended := Terminated(w, j, row.outcome, q.finished).(stops := w.stops[q.owned.binding.contract := row]);
      var timed :- LockedTime(ended, q.locked);
      var ack :- StopAck(row, timed.executions[j]);
      Committed(timed, ack)
  }
}
