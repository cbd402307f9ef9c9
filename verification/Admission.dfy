/** When the adapters act: what a commit needs, read from the stored rows, the request and its clock samples. */
module Admission {
  import opened Wrappers
  import opened Records
  import opened Budgets
  import opened JobSteps
  import opened ManagedSteps
  import opened ClaimPreservation
  import opened Evolution

  // ----- Permission -----

  /** The envelope is trusted, its owner's own, and in force at this instant. */
  predicate SignedFor(e: Envelope, owner: UserId, t: Instant) {
    && e.trusted && e.approver == owner && 1 <= e.context.maxExecutions <= 1000
    && e.approvedAt <= t && e.context.notBefore <= t < e.context.expiresAt
    && e.context.testingStart <= t < e.context.testingEnd
  }

  /** What was signed is what is stored: the job and its engagement, the revision and every fact it stands for,
      the case as it is now, an active authorization and its testing window, and limits in range. */
  predicate Describes(w: World, j: JobId, signed: Context, authorization: AuthorizationId, caseHash: Digest)
    requires Known(w, j)
  {
    var job, g := w.jobs[j], w.engagements[w.jobs[j].engagement];
    && signed.job == j && signed.engagement == job.engagement
    && signed.revision == g.revision && signed.authority == g.authority && !g.authority.stopWork
    && job.tool == Gate && job.testCase.Some? && job.testCase.value in g.cases
    && g.cases[job.testCase.value].hash == caseHash == signed.caseHash
    && authorization in g.authority.grants
    && var grant := g.authority.grants[authorization];
       && grant.status == "active"
       && signed.testingStart == (if grant.windowStart.Some? then grant.windowStart.value else signed.notBefore)
       && signed.testingEnd == (if grant.windowEnd.Some? then grant.windowEnd.value else signed.expiresAt)
       && signed.expiresAt <= signed.testingEnd
       && 1 <= signed.maxDuration <= 86400 && 1 <= signed.maxArtifact <= 1_073_741_824
  }

  /** All that permission to act on a job in this status rests on. */
  predicate MayAct(w: World, j: JobId, facts: Facts, status: Status, t: Instant) {
    && Known(w, j) && w.jobs[j].approval.Some? && w.jobs[j].approval.value in w.approvals
    && var a, g := w.approvals[w.jobs[j].approval.value], w.engagements[w.jobs[j].engagement];
       && !a.revoked && a.job == j && a.engagement == w.jobs[j].engagement && a.owner == g.owner
       && facts.enrolled && facts.inScope && w.jobs[j].status == status
       && Describes(w, j, a.envelope.context, a.authorization, a.caseHash) && SignedFor(a.envelope, a.owner, t)
  }

  lemma SignatureExactly(e: Envelope, owner: UserId, t: Instant)
    ensures CheckEnvelope(e, e.context, owner, t).Pass? <==> SignedFor(e, owner, t)
  {
  }

  /** The recomputed context is the signed one, and in force, exactly then. */
  lemma ProjectionExactly(w: World, j: JobId, e: Envelope, actor: UserId, authorization: AuthorizationId,
                          caseHash: Digest, revision: nat, status: Status, inScope: bool, t: Instant)
    requires Known(w, j)
    ensures var step := Projection(w, j, actor, authorization, caseHash, e.context, revision, status, inScope);
            && (step.Success? && CheckEnvelope(e, step.value, actor, t).Pass? <==>
                && revision == w.engagements[w.jobs[j].engagement].revision && w.jobs[j].status == status && inScope
                && actor == w.engagements[w.jobs[j].engagement].owner
                && Describes(w, j, e.context, authorization, caseHash) && SignedFor(e, actor, t))
            && (step.Success? && CheckEnvelope(e, step.value, actor, t).Pass? ==> step.value == e.context)
  {
  }

  /** Permission is granted exactly then, and is the stored approval. */
  lemma PermissionExactly(w: World, j: JobId, facts: Facts, status: Status, t: Instant)
    requires Known(w, j)
    ensures ClaimPermission(w, j, facts, status, t).Success? <==> MayAct(w, j, facts, status, t)
    ensures MayAct(w, j, facts, status, t) ==>
              ClaimPermission(w, j, facts, status, t).value == w.approvals[w.jobs[j].approval.value]
  {
    if w.jobs[j].approval.Some? && w.jobs[j].approval.value in w.approvals {
      var a := w.approvals[w.jobs[j].approval.value];
      ProjectionExactly(w, j, a.envelope, a.owner, a.authorization, a.caseHash, a.envelope.context.revision, status,
                        facts.inScope, t);
    }
    hide Projection, CheckEnvelope, SignedFor;
  }

  // ----- Acting on a live contract -----

  /** The request names the execution's holder and its contract in full. */
  predicate Names(w: World, q: LiveRequest) {
    && Known(w, q.job) && q.job in w.executions && w.executions[q.job].holder == q.holder && q.job in w.contracts
    && var c := w.contracts[q.job]; c.id == q.contract && c.attempt == q.attempt && c.fence == q.fence
  }

  /** Named, permitted, on a clock not behind the recorded one, active and inside its lease, and signed for still. */
  predicate Live(w: World, q: LiveRequest) {
    && Names(w, q) && MayAct(w, q.job, q.facts, Running, q.clock.permitted)
    && w.observed.Some? && w.observed.value <= q.clock.locked
    && w.executions[q.job].phase == Active && q.clock.system < w.executions[q.job].expiresAt
    && var a := w.approvals[w.jobs[q.job].approval.value];
       SignedFor(a.envelope, a.owner, q.clock.rechecked)
  }

  lemma GateExactly(w: World, q: LiveRequest)
    ensures Authorize(w, q).Success? <==> Live(w, q)
    ensures Live(w, q) ==> Authorize(w, q) == Success(w.(observed := Some(q.clock.locked)))
  {
    if Known(w, q.job) {
      PermissionExactly(w, q.job, q.facts, Running, q.clock.permitted);
      if MayAct(w, q.job, q.facts, Running, q.clock.permitted) {
        var a := w.approvals[w.jobs[q.job].approval.value];
        SignatureExactly(a.envelope, a.owner, q.clock.rechecked);
      }
    }
    hide ClaimPermission, CheckEnvelope, Describes, SignedFor;
  }

  /** A check permits exactly then, and moves nothing but the clock row. */
  lemma CheckExactly(w: World, q: LiveRequest)
    ensures CheckLive(w, q).Success? <==> Live(w, q)
    ensures Live(w, q) ==>
              CheckLive(w, q) ==
              Committed(w.(observed := Some(q.clock.locked)), Permitted(JobContext(w, q.job).revision))
  {
    hide Authorize, Describes, SignedFor;
    GateExactly(w, q);
  }

  /** A launch is acknowledged exactly when the caller is live, names the digest of a contract not launched before,
      and the lease outlasts every sample taken; it marks the contract and nothing else. */
  lemma LaunchExactly(w: World, q: LiveRequest, sha: Digest)
    ensures Consume(w, q, sha).Success? <==>
            && Live(w, q) && w.contracts[q.job].sha == sha && !w.contracts[q.job].consumed
            && q.clock.locked <= q.clock.relocked
            && q.clock.last < w.executions[q.job].expiresAt && q.clock.lastSystem < w.executions[q.job].expiresAt
            && var a := w.approvals[w.jobs[q.job].approval.value];
               SignedFor(a.envelope, a.owner, q.clock.instant)
    ensures Consume(w, q, sha).Success? ==>
              var c := w.contracts[q.job];
              Consume(w, q, sha) == Committed(w.(contracts := w.contracts[q.job := c.(consumed := true)],
                                                 observed := Some(q.clock.relocked)),
                                              Launched(Binding(c.id, c.attempt, c.fence, c.sha)))
  {
    hide Authorize, Describes, SignedFor, CheckEnvelope;
    GateExactly(w, q);
    if Live(w, q) {
      var a := w.approvals[w.jobs[q.job].approval.value];
      SignatureExactly(a.envelope, a.owner, q.clock.instant);
    }
  }

  /** The instant a renewal counts from, and the end it grants: whole seconds, at most ten, under the ceiling. */
  function RenewalInstant(q: LiveRequest): Instant {
    Max(q.clock.instant, q.clock.instantSystem)
  }

  function RenewalEnd(w: World, q: LiveRequest): Instant
    requires HasCeiling(w, q.job)
  {
    var left := LeaseCeiling(w, q.job) - RenewalInstant(q);
    RenewalInstant(q) + if left >= LEASE then LEASE else left - left % SECOND
  }

  /** A renewal commits exactly when the caller is live, its execution has an allocation, a whole second is left
      under the ceiling, the old lease has not ended, and the new one outlasts the last samples. */
  lemma RenewalExactly(w: World, q: LiveRequest)
    ensures Renew(w, q).Success? <==>
            && Live(w, q) && HasCeiling(w, q.job) && w.executions[q.job].seconds > 0
            && q.clock.locked <= q.clock.relocked
            && RenewalInstant(q) + SECOND <= LeaseCeiling(w, q.job)
            && RenewalInstant(q) < w.executions[q.job].expiresAt
            && q.clock.last < RenewalEnd(w, q) && q.clock.lastSystem < RenewalEnd(w, q)
    ensures Renew(w, q).Success? ==>
              && Renew(w, q).value.world == w.(observed := Some(q.clock.relocked), executions :=
                  w.executions[q.job := w.executions[q.job].(expiresAt := RenewalEnd(w, q))])
              && Renew(w, q).value.reply == Renewed((RenewalEnd(w, q) - RenewalInstant(q)) / SECOND, RenewalEnd(w, q))
  {
    hide Authorize, Describes, SignedFor, CheckEnvelope, Ceiling;
    GateExactly(w, q);
    if Live(w, q) && HasCeiling(w, q.job) { WholeSecondsLeft(LeaseCeiling(w, q.job) - RenewalInstant(q)); }
  }

  lemma WholeSecondsLeft(left: int)
    ensures WholeSeconds(left) > 0 <==> left >= SECOND
    ensures left >= SECOND ==>
              SECOND * Min(LEASE / SECOND, WholeSeconds(left)) ==
              if left >= LEASE then LEASE else left - left % SECOND
  {
  }

  // ----- Registering and revoking -----

  /** A new approval is registered exactly when the actor owns the engagement, is enrolled, presents it for a
      pending job it describes, and it is signed for at each of the three samples; a known one, exactly when
      it is the one the job already has, unrevoked and still signed for. */
  lemma RegistrationExactly(w: World, q: RegisterRequest)
    ensures Register(w, q).Success? <==>
            && Known(w, q.job) && SignedFor(q.envelope, q.actor, q.received)
            && w.observed.Some? && w.observed.value <= q.locked
            && if q.envelope.id in w.approvals then
                 var a := w.approvals[q.envelope.id];
                 && a.job == q.job && w.jobs[q.job].approval == Some(q.envelope.id)
                 && a.envelope == q.envelope && !a.revoked
               else
                 && w.jobs[q.job].status == Pending && q.facts.enrolled && q.facts.inScope
                 && q.actor == w.engagements[w.jobs[q.job].engagement].owner
                 && Describes(w, q.job, q.envelope.context, q.authorization, q.caseHash)
                 && SignedFor(q.envelope, q.actor, q.reviewed) && SignedFor(q.envelope, q.actor, q.signedOff)
  {
    if Known(w, q.job) {
      var revision := w.engagements[w.jobs[q.job].engagement].revision;
      ProjectionExactly(w, q.job, q.envelope, q.actor, q.authorization, q.caseHash, revision, Pending, q.facts.inScope,
                        q.reviewed);
    }
    SignatureExactly(q.envelope, q.actor, q.received);
    SignatureExactly(q.envelope, q.actor, q.signedOff);
    hide Projection, CheckEnvelope, SignedFor, Describes;
  }

  /** Only the owner of a job's approval revokes it, on a clock not behind the recorded one. */
  lemma RevocationExactly(w: World, j: JobId, actor: UserId, locked: Instant)
    ensures Revoke(w, j, actor, locked).Success? <==>
            && Known(w, j) && w.jobs[j].approval.Some? && w.jobs[j].approval.value in w.approvals
            && w.approvals[w.jobs[j].approval.value].owner == actor
            && w.observed.Some? && w.observed.value <= locked
    ensures Revoke(w, j, actor, locked).Success? ==>
              var id := w.jobs[j].approval.value;
              Revoke(w, j, actor, locked).value.world ==
              w.(observed := Some(locked), approvals := w.approvals[id := w.approvals[id].(revoked := true)])
  {
  }

  // ----- Claiming under an approval -----

  /** All three budgets are set, the claim asks for each, and each still has room for it. */
  predicate BudgetsAllow(w: World, q: ClaimRequest)
    requires Known(w, q.job) && w.jobs[q.job].testCase.Some?
    requires w.jobs[q.job].testCase.value in w.engagements[w.jobs[q.job].engagement].cases
  {
    var g := w.engagements[w.jobs[q.job].engagement];
    var limits, spec := g.authority.limits, g.cases[w.jobs[q.job].testCase.value];
    && limits.concurrency.Some? && q.control.concurrency
    && |ReservedJobs(w, w.jobs[q.job].engagement)| < limits.concurrency.value
    && limits.targets.Some? && spec.origins.Some? && 1 <= |spec.origins.value| <= 100
    && q.control.binding == Some(TargetBinding(spec.hash, spec.origins.value))
    && g.targetsSpent + |spec.origins.value| <= limits.targets.value
    && limits.duration.Some? && q.control.seconds.Some?
    && g.durationAllocated + q.control.seconds.value <= limits.duration.value
  }

  lemma CapacityIgnoresClock(w: World, e: EngagementId, t: Instant)
    requires e in w.engagements
    ensures ReservedJobs(w.(observed := Some(t)), e) == ReservedJobs(w, e)
  {
  }

  /** The contract is the first of its job, newly named, within what was signed, and signed for at both samples. */
  predicate MayIssue(w: World, q: ClaimRequest)
    requires Known(w, q.job) && w.jobs[q.job].approval.Some? && w.jobs[q.job].approval.value in w.approvals
  {
    var a := w.approvals[w.jobs[q.job].approval.value];
    && a.issued < a.envelope.context.maxExecutions && q.job !in w.contracts
    && (forall k :: k in w.contracts ==> w.contracts[k].id != q.contract)
    && SignedFor(a.envelope, a.owner, q.issued) && SignedFor(a.envelope, a.owner, q.final)
  }

  lemma CapacityExactly(w: World, e: EngagementId, optedIn: bool)
    requires e in w.engagements
    ensures CheckCapacity(w, e, optedIn).Pass? <==> CapacityFits(w, e, optedIn)
  {
  }

  lemma TargetsExactly(g: Engagement, spec: CaseSpec, supplied: Option<TargetBinding>)
    requires supplied.Some?
    ensures ChargeTargets(g, Gate, Some(spec), supplied).Success? <==>
            && g.authority.limits.targets.Some? && spec.origins.Some? && 1 <= |spec.origins.value| <= 100
            && supplied == Some(TargetBinding(spec.hash, spec.origins.value))
            && g.targetsSpent + |spec.origins.value| <= g.authority.limits.targets.value
  {
  }

  lemma DurationExactly(g: Engagement, seconds: Option<Seconds>)
    requires seconds.Some?
    ensures AllocateDuration(g, seconds).Success? <==>
            && g.authority.limits.duration.Some?
            && g.durationAllocated + seconds.value <= g.authority.limits.duration.value
  {
  }

  lemma ContractKeepsClock(u: World, j: JobId, c: Contract)
    requires c.approval in u.approvals
    ensures WithContract(u, j, c).observed == u.observed
  {
  }

  lemma NewlyNamed(w: World, id: ContractId)
    ensures ContractIdTaken(w, id) <==> !forall k :: k in w.contracts ==> w.contracts[k].id != id
  {
  }

  lemma IssueExactly(w: World, u: World, q: ClaimRequest, id: ApprovalId)
    requires Known(w, q.job) && w.jobs[q.job].approval == Some(id) && id in w.approvals
    requires u.contracts == w.contracts && u.approvals == w.approvals
    ensures IssueContract(u, q, id).Success? <==>
            MayIssue(w, q) && u.observed.Some? && u.observed.value <= q.relocked
  {
    var a := w.approvals[id];
    SignatureExactly(a.envelope, a.owner, q.issued);
    SignatureExactly(a.envelope, a.owner, q.final);
    ContractKeepsClock(u, q.job, Contract(q.contract, id, a.issued + 1, q.attempt, 1, q.sha, false));
    NewlyNamed(u, q.contract);
    hide CheckEnvelope, SignedFor, WithContract, ContractIdTaken;
  }

  /** What a permitted claim goes through after its permission. */
  predicate Proceeds(w: World, q: ClaimRequest)
    requires Known(w, q.job) && w.jobs[q.job].approval.Some? && w.jobs[q.job].approval.value in w.approvals
    requires w.jobs[q.job].testCase.Some?
    requires w.jobs[q.job].testCase.value in w.engagements[w.jobs[q.job].engagement].cases
  {
    var e, g := w.jobs[q.job].engagement, w.engagements[w.jobs[q.job].engagement];
    var spec := g.cases[w.jobs[q.job].testCase.value];
    var t, d := ChargeTargets(g, Gate, Some(spec), q.control.binding), AllocateDuration(g, q.control.seconds);
    var at := w.(observed := Some(q.locked));
    && q.control.concurrency && q.control.binding.Some? && q.control.seconds.Some?
    && w.observed.Some? && w.observed.value <= q.locked && CheckCapacity(at, e, true).Pass? && t.Success? && d.Success?
    && var u := Started(at, q.job, Some(spec), q.started, t.value, d.value);
       var x := NewExecution(q.control, t.value, d.value, q.system);
       IssueContract(WithExecution(u, q.job, x), q, w.jobs[q.job].approval.value).Success?
  }

  lemma ClaimProceeds(w: World, q: ClaimRequest)
    requires MayAct(w, q.job, q.facts, Pending, q.permitted)
    ensures ManagedClaim(w, q).Success? <==>
            && Proceeds(w, q)
            && q.control.seconds.value <= w.approvals[w.jobs[q.job].approval.value].envelope.context.maxDuration
  {
    PermissionExactly(w, q.job, q.facts, Pending, q.permitted);
    hide ClaimPermission, CheckCapacity, ChargeTargets, AllocateDuration, IssueContract, SignedFor, NewExecution;
    hide Started;
  }

  lemma ProceedsExactly(w: World, q: ClaimRequest)
    requires MayAct(w, q.job, q.facts, Pending, q.permitted)
    ensures Proceeds(w, q) <==>
            && BudgetsAllow(w, q) && w.observed.Some? && w.observed.value <= q.locked <= q.relocked && MayIssue(w, q)
  {
    var e, g := w.jobs[q.job].engagement, w.engagements[w.jobs[q.job].engagement];
    var spec := g.cases[w.jobs[q.job].testCase.value];
    var at := w.(observed := Some(q.locked));
    CapacityExactly(at, e, true);
    CapacityIgnoresClock(w, e, q.locked);
    if q.control.binding.Some? && q.control.seconds.Some? {
      TargetsExactly(g, spec, q.control.binding);
      DurationExactly(g, q.control.seconds);
      var t, d := ChargeTargets(g, Gate, Some(spec), q.control.binding), AllocateDuration(g, q.control.seconds);
      if t.Success? && d.Success? {
        var u := Started(at, q.job, Some(spec), q.started, t.value, d.value);
        var x := NewExecution(q.control, t.value, d.value, q.system);
        IssueExactly(w, WithExecution(u, q.job, x), q, w.jobs[q.job].approval.value);
      }
    }
    hide CheckCapacity, ChargeTargets, AllocateDuration, IssueContract, SignedFor, MayIssue, ReservedJobs, NewExecution;
  }

  /** A managed claim commits exactly when permission, the budgets, the clock and the contract all allow it. */
  lemma ManagedClaimExactly(w: World, q: ClaimRequest)
    ensures ManagedClaim(w, q).Success? <==>
            && MayAct(w, q.job, q.facts, Pending, q.permitted) && BudgetsAllow(w, q)
            && q.control.seconds.value <= w.approvals[w.jobs[q.job].approval.value].envelope.context.maxDuration
            && w.observed.Some? && w.observed.value <= q.locked <= q.relocked
            && MayIssue(w, q)
  {
    if MayAct(w, q.job, q.facts, Pending, q.permitted) {
      ClaimProceeds(w, q);
      ProceedsExactly(w, q);
    } else if ManagedClaim(w, q).Success? {
      ManagedClaimPassed(w, q);
      PermissionExactly(w, q.job, q.facts, Pending, q.permitted);
    }
    hide ManagedClaim, SignedFor, MayIssue, Proceeds, ReservedJobs;
  }

  // ----- Results, completions and stops -----

  /** The caller holds the execution and names in full its consumed contract, which the job's own approval issued. */
  predicate Holds(w: World, o: OwnedRequest) {
    && Known(w, o.job) && o.job in w.executions && w.executions[o.job].holder == o.holder && o.job in w.contracts
    && var job, c := w.jobs[o.job], w.contracts[o.job];
       && job.tool == Gate && job.contractRequired && c.consumed
       && c.id == o.binding.contract && c.attempt == o.binding.attempt && c.fence == o.binding.fence
       && c.sha == o.binding.sha
       && job.approval == Some(c.approval) && c.approval in w.approvals && w.approvals[c.approval].job == o.job
  }

  lemma OwnerExactly(w: World, o: OwnedRequest)
    ensures OwnedConsumed(w, o).Pass? <==> Holds(w, o)
  {
  }

  /** The stored result of the named contract is about the same job and binding. */
  predicate ResultFiled(w: World, o: OwnedRequest) {
    && o.binding.contract in w.results
    && w.results[o.binding.contract].job == o.job && w.results[o.binding.contract].binding == o.binding
  }

  lemma RetainedExactly(w: World, o: OwnedRequest)
    ensures ResultFiled(w, o) <==> RetainedResult(w, o).Success? && RetainedResult(w, o).value.Some?
    ensures ResultFiled(w, o) ==> RetainedResult(w, o) == Success(Some(w.results[o.binding.contract]))
    ensures RetainedResult(w, o) == Success(None) <==> o.binding.contract !in w.results
  {
  }

  predicate RightSize(a: Approval, size: nat) {
    0 < size <= 512_000 && size <= a.envelope.context.maxArtifact
  }

  /** The result is about the case frozen at the claim, which is the one the approval was signed for. */
  predicate RightCase(job: Job, a: Approval, u: Upload) {
    && job.snapshot.Some? && job.snapshot.value.hash == a.caseHash
    && u.caseHash == Some(job.snapshot.value.hash) && u.ref == Some(job.snapshot.value.ref)
  }

  /** What a submission writes. */
  function Submitted(w: World, q: SubmitRequest, caseHash: Digest): World {
    var row := ManagedResult(q.owned.job, q.owned.binding, q.artifact, caseHash, q.preflightFailed, None, None);
    w.(receipts := w.receipts[q.owned.job := q.upload.payload.full],
       history := w.history.(evidence := w.history.evidence + multiset{q.owned.job}),
       results := w.results[q.owned.binding.contract := row], observed := Some(q.locked))
  }

  /** A submission by the holder is refused for its size, its form or its case when that is the first thing wrong. */
  lemma SubmissionRefused(w: World, q: SubmitRequest)
    requires Holds(w, q.owned)
    ensures var job, a := w.jobs[q.owned.job], w.approvals[w.contracts[q.owned.job].approval];
            && (Submit(w, q) == Failure(ResultSize) <==> !RightSize(a, q.size))
            && (Submit(w, q) == Failure(InvalidResult) <==> RightSize(a, q.size) && !q.wellFormed)
            && (RightSize(a, q.size) && q.wellFormed && !RightCase(job, a, q.upload) ==>
                  Submit(w, q) == Failure(ResultCaseMismatch))
  {
    OwnerExactly(w, q.owned);
    RetainedExactly(w, q.owned);
    hide OwnedConsumed, AuthoritativeSpec;
  }

  /** It commits exactly when all three are right and it repeats the stored result, or nothing was ever stored
      and the clock is not behind the recorded one. */
  lemma SubmissionExactly(w: World, q: SubmitRequest)
    requires Holds(w, q.owned)
    ensures var job, a := w.jobs[q.owned.job], w.approvals[w.contracts[q.owned.job].approval];
            Submit(w, q).Success? <==>
            && RightSize(a, q.size) && q.wellFormed && RightCase(job, a, q.upload)
            && if q.owned.binding.contract in w.results then
                 var row := w.results[q.owned.binding.contract];
                 ResultFiled(w, q.owned) && row.artifact == q.artifact && row.caseHash == a.caseHash
               else q.owned.job !in w.receipts && w.observed.Some? && w.observed.value <= q.locked
    ensures Submit(w, q).Success? ==>
              var hash := w.approvals[w.contracts[q.owned.job].approval].caseHash;
              var v := if q.owned.binding.contract in w.results then w else Submitted(w, q, hash);
              Submit(w, q) == Committed(v, Retained(ResultReceipt(q.owned.job, q.owned.binding, q.artifact, hash)))
  {
    OwnerExactly(w, q.owned);
    RetainedExactly(w, q.owned);
    hide OwnedConsumed, RetainedResult, AuthoritativeSpec;
    if RightCase(w.jobs[q.owned.job], w.approvals[w.contracts[q.owned.job].approval], q.upload) {
      SnapshotDecides(w, q.owned.job);
    }
  }

  lemma SnapshotDecides(w: World, j: JobId)
    requires Known(w, j) && w.jobs[j].snapshot.Some?
    ensures AuthoritativeSpec(w, j) == w.jobs[j].snapshot
  {
  }

  /** A success is completed only with no failed preflight, under permission, on an active execution, strictly
      inside the lease and every ceiling at both checks, and signed for at both. */
  predicate SuccessAllowed(w: World, q: FinishRequest, row: ManagedResult)
    requires Holds(w, q.owned)
  {
    var j, a := q.owned.job, w.approvals[w.contracts[q.owned.job].approval];
    && !row.preflightFailed && MayAct(w, j, q.facts, Running, q.permitted) && w.executions[j].phase == Active
    && HasCeiling(w, j) && w.executions[j].seconds > 0
    && var end := Min(w.executions[j].expiresAt, LeaseCeiling(w, j));
       && q.live < end && q.liveSystem < end && q.final < end && q.finalSystem < end
       && SignedFor(a.envelope, a.owner, q.rechecked) && SignedFor(a.envelope, a.owner, q.finalRechecked)
  }

  lemma CompletableExactly(w: World, j: JobId, instant: Instant, rechecked: Instant)
    requires Known(w, j) && j in w.executions && w.jobs[j].approval.Some? && w.jobs[j].approval.value in w.approvals
    ensures var a := w.approvals[w.jobs[j].approval.value];
            CheckCompletable(w, j, instant, rechecked).Pass? <==>
            && HasCeiling(w, j) && w.executions[j].seconds > 0
            && instant < w.executions[j].expiresAt && instant < LeaseCeiling(w, j)
            && SignedFor(a.envelope, a.owner, rechecked)
  {
    var a := w.approvals[w.jobs[j].approval.value];
    SignatureExactly(a.envelope, a.owner, rechecked);
    hide CheckEnvelope, SignedFor, Ceiling;
  }

  lemma SuccessExactly(w: World, q: FinishRequest, row: ManagedResult)
    requires Holds(w, q.owned) && OwnedConsumed(w, q.owned).Pass? && q.outcome == Completed
    ensures SuccessAllowed(w, q, row) <==>
            && MayComplete(w, q, row).Pass?
            && CheckCompletable(w, q.owned.job, Max(q.final, q.finalSystem), q.finalRechecked).Pass?
  {
    PermissionExactly(w, q.owned.job, q.facts, Running, q.permitted);
    CompletableExactly(w, q.owned.job, Max(q.live, q.liveSystem), q.rechecked);
    CompletableExactly(w, q.owned.job, Max(q.final, q.finalSystem), q.finalRechecked);
    hide OwnedConsumed, ClaimPermission, CheckCompletable, SignedFor, MayAct, LeaseCeiling;
  }

  /** A completion by the holder commits exactly when it repeats the stored outcome of an execution that ended so, or
      when the result is open, its receipt is the one presented, the execution still runs on reserved capacity,
      the clock is not behind the recorded one, and a success is allowed. */
  lemma CompletionExactly(w: World, q: FinishRequest)
    requires Holds(w, q.owned)
    ensures Finish(w, q).Success? <==>
            && ResultFiled(w, q.owned)
            && var row, x := w.results[q.owned.binding.contract], w.executions[q.owned.job];
               && q.receipt == ResultReceipt(q.owned.job, q.owned.binding, row.artifact, row.caseHash)
               && if row.outcome.Some? then
                    row.outcome.value == q.outcome && x.phase == Ended(q.outcome) && !x.reserved
                  else
                    && !x.phase.Ended? && x.reserved && w.observed.Some? && w.observed.value <= q.locked
                    && (q.outcome == Completed ==> SuccessAllowed(w, q, row))
  {
    OwnerExactly(w, q.owned);
    RetainedExactly(w, q.owned);
    if ResultFiled(w, q.owned) && q.outcome == Completed {
      SuccessExactly(w, q, w.results[q.owned.binding.contract]);
    }
    hide OwnedConsumed, RetainedResult, MayComplete, CheckCompletable, SuccessAllowed;
    if q.outcome != Completed && ResultFiled(w, q.owned) {
      FailureNeedsNothing(w, q, w.results[q.owned.binding.contract]);
    }
  }

  lemma FailureNeedsNothing(w: World, q: FinishRequest, row: ManagedResult)
    requires OwnedConsumed(w, q.owned).Pass? && q.outcome != Completed
    ensures MayComplete(w, q, row).Pass?
  {
  }

  /** A stop report by the holder commits exactly when it repeats the stored cause of an execution that ended so, or
      when nothing is stored for the contract, the execution still runs on reserved capacity, and the clock is
      not behind the recorded one. A local emergency or a remote request cancels; every other cause fails. */
  lemma StopExactly(w: World, q: StopRequest)
    requires Holds(w, q.owned)
    ensures ReportStop(w, q).Success? <==>
            var c, x := q.owned.binding.contract, w.executions[q.owned.job];
            if c in w.stops then
              var row := w.stops[c];
              && row.job == q.owned.job && row.binding == q.owned.binding && row.cause == q.cause
              && row.outcome == StoppedAs(row.cause) && x.phase == Ended(row.outcome) && !x.reserved
            else
              && c !in w.results && !x.phase.Ended? && x.reserved
              && w.observed.Some? && w.observed.value <= q.locked
    ensures ReportStop(w, q).Success? ==>
              ReportStop(w, q).value.reply == Stopped(q.owned.binding, StoppedAs(q.cause), q.cause)
  {
    OwnerExactly(w, q.owned);
    RetainedExactly(w, q.owned);
    hide OwnedConsumed, RetainedResult;
  }

  function StoppedAs(cause: Cause): Outcome {
    if cause in {LocalEmergencyStop, RemoteStopRequested} then Cancelled else Unsuccessful
  }

  /** The clock row takes a sample exactly when it is not before what it shows, and then shows it. */
  lemma ClockExactly(w: World, t: Instant)
    ensures ObserveClock(w, t).Success? <==> w.observed.None? || w.observed.value <= t
    ensures ObserveClock(w, t).Success? ==> ObserveClock(w, t).value.world == w.(observed := Some(t))
  {
  }
}
