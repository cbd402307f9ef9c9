/** Both kinds of claim keep the invariant: the job starts, the engagement is charged, capacity is taken. */
module ClaimPreservation {
  import opened Wrappers
  import opened Records
  import opened Budgets
  import opened JobSteps
  import opened ManagedSteps
  import opened Protocol
  import opened Frames
  import opened Preservation

  /** The engagement's limits still hold once this much more is charged. */
  predicate Affordable(g: Engagement, targets: nat, seconds: nat) {
    var limits := g.authority.limits;
    && (if limits.targets.Some? then g.targetsSpent + targets <= limits.targets.value else targets == 0)
    && (if limits.duration.Some? then g.durationAllocated + seconds <= limits.duration.value else seconds == 0)
  }

  /** Capacity is free exactly when a limit is set and the claim opts in; without a limit none is taken. */
  predicate CapacityFits(w: World, e: EngagementId, optedIn: bool)
    requires e in w.engagements
  {
    var limit := w.engagements[e].authority.limits.concurrency;
    if limit.Some? then optedIn && |ReservedJobs(w, e)| < limit.value else !optedIn
  }

  lemma OneMore<T>(a: set<T>, b: set<T>, x: T)
    requires a <= b + {x}
    ensures |a| <= |b| + 1
  {
    SubsetSize(a, b + {x});
  }

  lemma SumsGrow(charges: seq<Charge>, c: Charge, e: EngagementId)
    ensures SumTargets(charges + [c], e) == SumTargets(charges, e) + if c.engagement == e then c.targets else 0
    ensures SumSeconds(charges + [c], e) == SumSeconds(charges, e) + if c.engagement == e then c.seconds else 0
  {
    assert (charges + [c])[..|charges + [c]| - 1] == charges;
  }

  /** Only j, of its own engagement, can have come to hold a reservation. */
  lemma ReservationsGrow(w: World, v: World, j: JobId, e: EngagementId)
    requires j in w.jobs && j in v.jobs && v.jobs == w.jobs[j := v.jobs[j]]
             && v.jobs[j].engagement == w.jobs[j].engagement
    requires v.executions == w.executions || (j in v.executions && v.executions == w.executions[j := v.executions[j]])
    ensures e != w.jobs[j].engagement ==> ReservedJobs(v, e) == ReservedJobs(w, e)
    ensures |ReservedJobs(v, e)| <= |ReservedJobs(w, e)| + 1
    ensures !(j in v.executions && v.executions[j].reserved) ==> ReservedJobs(v, e) <= ReservedJobs(w, e)
  {
    OneMore(ReservedJobs(v, e), ReservedJobs(w, e), j);
  }

  /** A charged step on job j of engagement e, which may reserve capacity for j. */
  lemma ChargedAccounts(w: World, v: World, j: JobId, targets: nat, seconds: nat)
    requires AccountsOk(w) && Known(w, j) && j in v.jobs && v.jobs == w.jobs[j := v.jobs[j]]
    requires v.jobs[j].engagement == w.jobs[j].engagement
    requires v.executions == w.executions || (j in v.executions && v.executions == w.executions[j := v.executions[j]])
    requires var e := w.jobs[j].engagement; var g := w.engagements[e];
             && v.engagements == w.engagements[e :=
                 g.(targetsSpent := g.targetsSpent + targets, durationAllocated := g.durationAllocated + seconds)]
             && v.history.charges == w.history.charges + [Charge(e, j, targets, seconds)]
             && v.history.engagements == w.history.engagements
             && Affordable(g, targets, seconds)
             && CapacityFits(w, e, j in v.executions && v.executions[j].reserved)
    ensures AccountsOk(v)
  {
    var e0 := w.jobs[j].engagement;
    forall e | e in v.engagements ensures EngagementOk(v, e) {
      assert EngagementOk(w, e);
      SumsGrow(w.history.charges, Charge(e0, j, targets, seconds), e);
      ReservationsGrow(w, v, j, e);
    }
    hide SumTargets, SumSeconds, ReservedJobs;
  }

  lemma ChargesAffordable(g: Engagement, tool: Tool, spec: Option<CaseSpec>, binding: Option<TargetBinding>,
                          seconds: Option<Seconds>)
    ensures ChargeTargets(g, tool, spec, binding).Success? && AllocateDuration(g, seconds).Success?
            ==> Affordable(g, ChargeTargets(g, tool, spec, binding).value, AllocateDuration(g, seconds).value)
  {
  }

  /** The rows a claim writes: the job's own, and its engagement's two totals. */
  ghost predicate ClaimWrites(w: World, v: World, j: JobId, targets: nat, seconds: nat)
    requires Known(w, j)
  {
    var e := w.jobs[j].engagement;
    var g := w.engagements[e];
    && j in v.jobs && v.jobs == w.jobs[j := v.jobs[j]] && v.jobs[j].engagement == e
    && (v.executions == w.executions || (j in v.executions && v.executions == w.executions[j := v.executions[j]]))
    && v.engagements == w.engagements[e :=
        g.(targetsSpent := g.targetsSpent + targets, durationAllocated := g.durationAllocated + seconds)]
    && v.history == w.history.(charges := w.history.charges + [Charge(e, j, targets, seconds)])
    && v.receipts == w.receipts && v.results == w.results && v.stops == w.stops
  }

  lemma ClaimFrame(w: World, v: World, j: JobId, targets: nat, seconds: nat)
    requires Inv(w) && Known(w, j) && ClaimWrites(w, v, j, targets, seconds)
    requires forall a :: SameApproval(w, v, j, a)
    requires v.contracts == w.contracts || (j in v.contracts && v.contracts == w.contracts[j := v.contracts[j]])
    ensures OnlyJob(w, v, j)
  {
    forall k | k != j ensures SameRows(w, v, k) {}
    forall c ensures SameReceipts(w, v, j, c) {}
  }

  lemma ClaimedEngagement(w: World, v: World, j: JobId, targets: nat, seconds: nat)
    requires Inv(w) && Known(w, j) && ClaimWrites(w, v, j, targets, seconds)
    ensures HistoryOk(v)
  {
    assert EngagementOk(w, w.jobs[j].engagement);
  }

  lemma ClaimKeeps(w: World, v: World, j: JobId, targets: nat, seconds: nat)
    requires Inv(w) && Known(w, j) && ClaimWrites(w, v, j, targets, seconds) && OnlyJob(w, v, j) && JobRowsOk(v, j)
    requires Affordable(w.engagements[w.jobs[j].engagement], targets, seconds)
    requires CapacityFits(w, w.jobs[j].engagement, j in v.executions && v.executions[j].reserved)
    ensures Inv(v)
  {
    ChargedAccounts(w, v, j, targets, seconds);
    FrameRows(w, v, j);
    ClaimedEngagement(w, v, j, targets, seconds);
    hide Inv, OnlyJob, JobRowsOk, Affordable, CapacityFits; // each is shown by name
  }

  /** A job without any execution, not under a managed approval, starts; at most one new execution appears. */
  lemma StartKeeps(w: World, j: JobId, snapshot: Option<CaseSpec>, at: Instant, targets: nat, seconds: nat,
                   x: Option<Execution>)
    requires Inv(w) && Known(w, j) && w.jobs[j].status == Pending && !Managed(w.jobs[j])
    requires var g := w.engagements[w.jobs[j].engagement];
             Affordable(g, targets, seconds) && !g.authority.stopWork
             && CapacityFits(w, w.jobs[j].engagement, x.Some? && x.value.reserved)
    requires x.Some? ==> x.value.phase == Active
    ensures var s := Started(w, j, snapshot, at, targets, seconds);
            Inv(if x.Some? then WithExecution(s, j, x.value) else s)
  {
    hide OnlyJob, JobRowsOk, Affordable;
    var s := Started(w, j, snapshot, at, targets, seconds);
    var v := if x.Some? then WithExecution(s, j, x.value) else s;
    PendingHoldsNothing(w, j);
    StartedRows(w, v, j, targets, seconds);
    ClaimFrame(w, v, j, targets, seconds);
    ClaimKeeps(w, v, j, targets, seconds);
  }

  lemma StartedRows(w: World, v: World, j: JobId, targets: nat, seconds: nat)
    requires Inv(w) && Known(w, j) && w.jobs[j].status == Pending && !Managed(w.jobs[j])
             && ClaimWrites(w, v, j, targets, seconds)
    requires j !in w.executions && j !in w.contracts
    requires v.approvals == w.approvals && v.contracts == w.contracts
    requires v.jobs[j].status == Running && !Managed(v.jobs[j])
    requires var g := w.engagements[w.jobs[j].engagement];
             !g.authority.stopWork && CapacityFits(w, w.jobs[j].engagement, j in v.executions
                 && v.executions[j].reserved)
    requires j in v.executions ==> v.executions[j].phase == Active
    ensures JobRowsOk(v, j)
  {
    assert JobOk(w, j);
    ReceiptsFiled(w);
    forall a | a in v.approvals && v.approvals[a].job == j ensures ApprovalOk(v, a) { assert ApprovalOk(w, a); }
  }

  lemma LegacyClaimKeeps(w: World, j: JobId, control: Option<Control>, now: Instant, system: Instant)
    requires Inv(w) && LegacyClaim(w, j, control, now, system).Success?
    ensures Inv(LegacyClaim(w, j, control, now, system).value.world)
  {
    var job := w.jobs[j];
    var g := w.engagements[job.engagement];
    var snapshot := ClaimSnapshot(w, j).value;
    var binding := if control.Some? then control.value.binding else None;
    var seconds := if control.Some? then control.value.seconds else None;
    ChargesAffordable(g, job.tool, snapshot, binding, seconds);
    var t, d := ChargeTargets(g, job.tool, snapshot, binding).value, AllocateDuration(g, seconds).value;
    StartKeeps(w, j, snapshot, now, t, d, if control.Some? then Some(NewExecution(control.value, t, d, system))
               else None);
  }

  /** A managed claim, after its checks: the started job, its execution and its contract appear together. */
  function ManagedStart(w: World, j: JobId, snapshot: CaseSpec, at: Instant, x: Execution, c: Contract): World
    requires Known(w, j) && c.approval in w.approvals
  {
    WithContract(WithExecution(Started(w, j, Some(snapshot), at, x.targetCharge, x.seconds), j, x), j, c)
  }

  lemma ManagedStartKeeps(w: World, j: JobId, snapshot: CaseSpec, at: Instant, x: Execution, c: Contract)
    requires Inv(w) && Known(w, j) && w.jobs[j].status == Pending && w.jobs[j].tool == Gate
    requires w.jobs[j].approval == Some(c.approval) && c.approval in w.approvals
    requires var g := w.engagements[w.jobs[j].engagement];
             Affordable(g, x.targetCharge, x.seconds) && !g.authority.stopWork
             && CapacityFits(w, w.jobs[j].engagement, true)
    requires snapshot.hash == w.approvals[c.approval].caseHash
    requires x.phase == Active && x.reserved && x.seconds > 0
    requires c.ordinal == w.approvals[c.approval].issued + 1 <= w.approvals[c.approval].envelope.context.maxExecutions
    requires c.fence == 1 && !c.consumed && !ContractIdTaken(w, c.id)
    ensures Inv(ManagedStart(w, j, snapshot, at, x, c))
  {
    hide OnlyJob, JobRowsOk, Affordable;
    var v := ManagedStart(w, j, snapshot, at, x, c);
    PendingHoldsNothing(w, j);
    assert JobOk(w, j) && ApprovalOk(w, c.approval);
    ManagedStartedRows(w, v, j);
    ClaimFrame(w, v, j, x.targetCharge, x.seconds);
    ClaimKeeps(w, v, j, x.targetCharge, x.seconds);
  }

  lemma ManagedStartedRows(w: World, v: World, j: JobId)
    requires Inv(w) && Known(w, j) && w.jobs[j].status == Pending && w.jobs[j].tool == Gate && w.jobs[j].approval.Some?
    requires j !in w.executions && j !in w.contracts && j in v.executions && j in v.contracts
    requires ClaimWrites(w, v, j, v.executions[j].targetCharge, v.executions[j].seconds)
    requires w.jobs[j].approval.value in w.approvals
    requires var id := w.jobs[j].approval.value; var a := w.approvals[id]; var c := v.contracts[j];
             && v.approvals == w.approvals[id := a.(issued := c.ordinal)] && v.contracts == w.contracts[j := c]
             && c.approval == id && c.ordinal == a.issued + 1 <= a.envelope.context.maxExecutions
             && c.fence == 1 && !ContractIdTaken(w, c.id)
    requires v.jobs[j].(status := Pending, startedAt := None, snapshot := None)
          == w.jobs[j].(startedAt := None, snapshot := None)
    requires v.jobs[j].status == Running && v.jobs[j].startedAt.Some? && v.jobs[j].snapshot.Some?
    requires v.jobs[j].snapshot.value.hash == w.approvals[w.jobs[j].approval.value].caseHash
    requires var g := w.engagements[w.jobs[j].engagement]; !g.authority.stopWork && g.authority.limits.concurrency.Some?
    requires var x := v.executions[j]; x.phase == Active && x.reserved && x.seconds > 0
    ensures JobRowsOk(v, j)
  {
    assert JobOk(w, j) && ApprovalOk(w, w.jobs[j].approval.value);
    ReceiptsFiled(w);
    forall a | a in v.approvals && v.approvals[a].job == j ensures ApprovalOk(v, a) { assert ApprovalOk(w, a); }
  }

  /** What permission to claim has established. */
  lemma PermissionShows(w: World, j: JobId, facts: Facts, status: Status, t: Instant)
    requires Known(w, j) && ClaimPermission(w, j, facts, status, t).Success?
    ensures var job := w.jobs[j]; var g := w.engagements[job.engagement];
            && job.tool == Gate && job.status == status && job.approval.Some? && job.approval.value in w.approvals
            && job.testCase.Some? && job.testCase.value in g.cases
            && g.cases[job.testCase.value].hash == w.approvals[job.approval.value].caseHash && !g.authority.stopWork
            && ClaimPermission(w, j, facts, status, t).value == w.approvals[job.approval.value]
  {
    hide CheckEnvelope;
  }

  /** The one contract issued, and the store it is issued in. */
  lemma IssueShows(u: World, q: ClaimRequest, id: ApprovalId)
    requires id in u.approvals && IssueContract(u, q, id).Success?
    ensures var c := Contract(q.contract, id, u.approvals[id].issued + 1, q.attempt, 1, q.sha, false);
            && c.ordinal <= u.approvals[id].envelope.context.maxExecutions && !ContractIdTaken(u, c.id)
            && IssueContract(u, q, id).value == WithContract(u, q.job, c).(observed := Some(q.relocked))
  {
    hide CheckEnvelope, ContractIdTaken;
  }

  /** The allowance a claim asks for, in budgets that are all set. */
  predicate Budgeted(c: Control) {
    c.concurrency && c.binding.Some? && c.seconds.Some?
  }

  /** The chain of checks a committed managed claim has passed, in their own terms. */
  lemma ManagedClaimPassed(w: World, q: ClaimRequest)
    requires ManagedClaim(w, q).Success?
    ensures Known(w, q.job) && ClaimPermission(w, q.job, q.facts, Pending, q.permitted).Success? && Budgeted(q.control)
    ensures CheckCapacity(w.(observed := Some(q.locked)), w.jobs[q.job].engagement, true).Pass?
    ensures w.jobs[q.job].testCase.Some?
            && w.jobs[q.job].testCase.value in w.engagements[w.jobs[q.job].engagement].cases
    ensures w.jobs[q.job].approval.Some? && w.jobs[q.job].approval.value in w.approvals
    ensures var job := w.jobs[q.job]; var g := w.engagements[job.engagement];
            var snapshot := g.cases[job.testCase.value];
            var targets := ChargeTargets(g, job.tool, Some(snapshot), q.control.binding);
            var seconds := AllocateDuration(g, q.control.seconds);
            && targets.Success? && seconds.Success?
            && var x := NewExecution(q.control, targets.value, seconds.value, q.system);
               var at := w.(observed := Some(q.locked));
               var u := Started(at, q.job, Some(snapshot), q.started, targets.value, seconds.value);
               var issued := IssueContract(WithExecution(u, q.job, x), q, job.approval.value);
               && issued.Success?
               && ManagedClaim(w, q) == Committed(issued.value, Issued(issued.value.contracts[q.job], x))
  {
    if Known(w, q.job) && ClaimPermission(w, q.job, q.facts, Pending, q.permitted).Success? {
      PermissionShows(w, q.job, q.facts, Pending, q.permitted);
    }
    hide ClaimPermission, CheckCapacity, ChargeTargets, AllocateDuration, IssueContract, NewExecution;
  }

  lemma AllocationsPositive(g: Engagement, seconds: Option<Seconds>)
    requires seconds.Some? && AllocateDuration(g, seconds).Success?
    ensures AllocateDuration(g, seconds).value > 0
  {
  }

  /** The clock row plays no part in starting a job. */
  lemma StartIgnoresClock(w: World, t: Instant, j: JobId, snapshot: CaseSpec, at: Instant, x: Execution, c: Contract,
                          s: Instant)
    requires Known(w, j) && c.approval in w.approvals
    ensures var u := Started(w.(observed := Some(t)), j, Some(snapshot), at, x.targetCharge, x.seconds);
            WithContract(WithExecution(u, j, x), j, c).(observed := Some(s)) ==
            ManagedStart(w, j, snapshot, at, x, c).(observed := Some(s))
  {
  }

  /** Exactly what a committed managed claim wrote. */
  lemma ManagedClaimWrote(w: World, q: ClaimRequest)
    requires ManagedClaim(w, q).Success?
    ensures Known(w, q.job)
    ensures var job := w.jobs[q.job]; job.approval.Some? && job.approval.value in w.approvals
    ensures var job := w.jobs[q.job]; job.testCase.Some? && job.testCase.value in w.engagements[job.engagement].cases
    ensures var r := ManagedClaim(w, q).value; var job := w.jobs[q.job]; var a := w.approvals[job.approval.value];
            var c := Contract(q.contract, job.approval.value, a.issued + 1, q.attempt, 1, q.sha, false);
            && c.ordinal <= a.envelope.context.maxExecutions && !ContractIdTaken(w, c.id)
            && r.reply.Issued? && r.reply.contract == c
            && var snapshot := w.engagements[job.engagement].cases[job.testCase.value];
               r.world == ManagedStart(w, q.job, snapshot, q.started, r.reply.execution, c)
                          .(observed := Some(q.relocked))
  {
    ManagedClaimPassed(w, q);
    hide ManagedClaim, ClaimPermission, CheckCapacity, ChargeTargets, AllocateDuration, IssueContract, ContractIdTaken;
    var job := w.jobs[q.job];
    var snapshot := w.engagements[job.engagement].cases[job.testCase.value];
    var x, c := ManagedClaim(w, q).value.reply.execution, ManagedClaim(w, q).value.reply.contract;
    var at := w.(observed := Some(q.locked));
    var u := WithExecution(Started(at, q.job, Some(snapshot), q.started, x.targetCharge, x.seconds), q.job, x);
    IssueShows(u, q, job.approval.value);
    SameContractIds(w, u, q.contract);
    StartIgnoresClock(w, q.locked, q.job, snapshot, q.started, x, c, q.relocked);
  }

  /** What a committed managed claim has checked, and exactly what it wrote. */
  lemma ManagedClaimShape(w: World, q: ClaimRequest)
    requires ManagedClaim(w, q).Success?
    ensures Known(w, q.job)
    ensures var r := ManagedClaim(w, q).value; var job := w.jobs[q.job]; var g := w.engagements[job.engagement];
            && job.status == Pending && job.tool == Gate && job.approval.Some? && job.approval.value in w.approvals
            && job.testCase.Some? && job.testCase.value in g.cases
            && g.cases[job.testCase.value].hash == w.approvals[job.approval.value].caseHash
            && !g.authority.stopWork && CapacityFits(w, job.engagement, true)
            && r.reply.Issued? && r.reply.contract.approval == job.approval.value
            && var snapshot := g.cases[job.testCase.value];
               r.world == ManagedStart(w, q.job, snapshot, q.started, r.reply.execution, r.reply.contract)
                          .(observed := Some(q.relocked))
    ensures var r := ManagedClaim(w, q).value; var x, c := r.reply.execution, r.reply.contract;
            var g := w.engagements[w.jobs[q.job].engagement]; var a := w.approvals[w.jobs[q.job].approval.value];
            && Affordable(g, x.targetCharge, x.seconds) && x.phase == Active && x.reserved && x.seconds > 0
            && c.ordinal == a.issued + 1 <= a.envelope.context.maxExecutions
            && c.fence == 1 && !c.consumed && !ContractIdTaken(w, c.id)
  {
    ManagedClaimPassed(w, q);
    ManagedClaimWrote(w, q);
    PermissionShows(w, q.job, q.facts, Pending, q.permitted);
    hide ManagedClaim, ClaimPermission, ChargeTargets, AllocateDuration, IssueContract, ContractIdTaken, Affordable;
    hide ManagedStart;
    var job := w.jobs[q.job];
    var g := w.engagements[job.engagement];
    var snapshot := g.cases[job.testCase.value];
    ChargesAffordable(g, job.tool, Some(snapshot), q.control.binding, q.control.seconds);
    AllocationsPositive(g, q.control.seconds);
    ClockedReservations(w, q.locked, job.engagement);
  }

  lemma SameContractIds(w: World, u: World, id: ContractId)
    requires u.contracts == w.contracts
    ensures ContractIdTaken(u, id) <==> ContractIdTaken(w, id)
  {
  }

  lemma ManagedClaimKeeps(w: World, q: ClaimRequest)
    requires Inv(w) && ManagedClaim(w, q).Success?
    ensures Inv(ManagedClaim(w, q).value.world)
  {
    ManagedClaimShape(w, q);
    var r := ManagedClaim(w, q).value;
    var g := w.engagements[w.jobs[q.job].engagement];
    var snapshot := g.cases[w.jobs[q.job].testCase.value];
    ManagedStartKeeps(w, q.job, snapshot, q.started, r.reply.execution, r.reply.contract);
    ClockKeeps(ManagedStart(w, q.job, snapshot, q.started, r.reply.execution, r.reply.contract), Some(q.relocked));
  }

  lemma ClockedReservations(w: World, t: Instant, e: EngagementId)
    ensures ReservedJobs(w.(observed := Some(t)), e) == ReservedJobs(w, e)
  {
  }
}
