/** What never changes back: a transitive relation between a store and every later one. */
module Evolution {
  import opened Wrappers
  import opened Records
  import opened Budgets
  import opened AuthorityEdits
  import opened JobSteps
  import opened ManagedSteps
  import opened Protocol
  import opened Frames
  import opened Preservation
  import opened ClaimPreservation

  ghost predicate HistoryLater(w: World, v: World) {
    && w.history.jobs <= v.history.jobs && w.history.engagements <= v.history.engagements
    && w.history.charges <= v.history.charges && w.history.evidence <= v.history.evidence
    && (w.observed.Some? ==> v.observed.Some? && w.observed.value <= v.observed.value)
  }

  /** Revisions only grow, an unchanged revision means unchanged facts, and nothing spent is refunded. */
  ghost predicate EngagementLater(w: World, v: World, e: EngagementId) {
    e in v.engagements ==>
      if e !in w.engagements then e !in w.history.engagements
      else
        var g, h := w.engagements[e], v.engagements[e];
        && g.revision <= h.revision
        && (g.revision == h.revision ==> g.authority == h.authority && KeepsCases(g, h))
        && g.targetsSpent <= h.targetsSpent && g.durationAllocated <= h.durationAllocated && g.owner == h.owner
  }

  predicate Finished(s: Status) {
    s == Done || s == Failed
  }

  /** Deleted jobs stay deleted, finished jobs stay finished, and an attempt belongs to its job for good. */
  ghost predicate JobLater(w: World, v: World, j: JobId) {
    j in v.jobs ==>
      if j !in w.jobs then j !in w.history.jobs
      else
        var a, b := w.jobs[j], v.jobs[j];
        && a.engagement == b.engagement && a.tool == b.tool && a.testCase == b.testCase && a.dependsOn == b.dependsOn
        && (Finished(a.status) ==> a.status == b.status)
        && (Managed(a) ==> Managed(b))
        && (j in w.executions ==> j in v.executions && ExecutionLater(w.executions[j], v.executions[j])
                                  && a.startedAt == b.startedAt && a.snapshot == b.snapshot && a.approval == b.approval)
        && (j in w.executions && j in w.contracts ==> LeaseLater(w, v, j))
        && (j in w.receipts ==> j in v.receipts && v.receipts[j] == w.receipts[j])
  }

  /** An execution that left `Active` never returns to it and never completes; an ended one is frozen. */
  predicate ExecutionLater(x: Execution, y: Execution) {
    && x.holder == y.holder && x.seconds == y.seconds && x.targetCharge == y.targetCharge
    && (x.phase.Ended? ==> y == x)
    && (x.phase != Active ==> y.phase != Active && (y.phase == Ended(Completed) ==> x.phase == Ended(Completed)))
    && (y.reserved ==> x.reserved)
  }

  /** The ceiling on the lease of a job that has a contract. */
  function LeaseCeiling(w: World, j: JobId): Instant
    requires j in w.jobs && j in w.executions && w.jobs[j].startedAt.Some?
    requires w.jobs[j].approval.Some? && w.jobs[j].approval.value in w.approvals
  {
    Ceiling(JobContext(w, j), w.jobs[j].startedAt.value, w.executions[j].seconds)
  }

  predicate HasCeiling(w: World, j: JobId) {
    && j in w.jobs && j in w.executions && w.jobs[j].startedAt.Some?
    && w.jobs[j].approval.Some? && w.jobs[j].approval.value in w.approvals
  }

  /** The lease of a contracted job moves only under the ceiling. */
  ghost predicate LeaseLater(w: World, v: World, j: JobId)
    requires j in w.executions && j in v.executions
  {
    HasCeiling(w, j) ==>
      v.executions[j].expiresAt == w.executions[j].expiresAt || v.executions[j].expiresAt <= LeaseCeiling(w, j)
  }

  ghost predicate ContractLater(w: World, v: World, j: JobId) {
    j in w.contracts ==>
      j in v.contracts && v.contracts[j] == w.contracts[j].(consumed := v.contracts[j].consumed)
      && (w.contracts[j].consumed ==> v.contracts[j].consumed)
  }

  ghost predicate ApprovalLater(w: World, v: World, a: ApprovalId) {
    a in w.approvals ==>
      a in v.approvals && v.approvals[a]
                          == w.approvals[a].(issued := v.approvals[a].issued, revoked := v.approvals[a].revoked)
      && w.approvals[a].issued <= v.approvals[a].issued && (w.approvals[a].revoked ==> v.approvals[a].revoked)
  }

  /** Receipts are kept for good; a result gains its outcome at most once. */
  ghost predicate ReceiptLater(w: World, v: World, c: ContractId) {
    && (c in w.results ==>
          c in v.results
          && (v.results[c] == w.results[c]
              || (w.results[c].outcome.None?
                  && v.results[c] == w.results[c].(outcome := v.results[c].outcome,
                                     finishedAt := v.results[c].finishedAt))))
    && (c in w.stops ==> c in v.stops && v.stops[c] == w.stops[c])
  }

  ghost predicate Later(w: World, v: World) {
    && HistoryLater(w, v)
    && (forall e {:trigger EngagementLater(w, v, e)} :: EngagementLater(w, v, e))
    && (forall j {:trigger JobLater(w, v, j)} :: JobLater(w, v, j))
    && (forall j {:trigger ContractLater(w, v, j)} :: ContractLater(w, v, j))
    && (forall a {:trigger ApprovalLater(w, v, a)} :: ApprovalLater(w, v, a))
    && (forall c {:trigger ReceiptLater(w, v, c)} :: ReceiptLater(w, v, c))
  }

  lemma LaterReflexive(w: World)
    ensures Later(w, w)
  {
  }

  /** Every row has an identifier that was really issued. */
  ghost predicate Named(w: World) {
    && (forall j :: j in w.jobs ==> j in w.history.jobs)
    && (forall e :: e in w.engagements ==> e in w.history.engagements)
  }

  lemma InvNamed(w: World)
    requires Inv(w)
    ensures Named(w)
  {
    forall j | j in w.jobs ensures j in w.history.jobs { assert JobOk(w, j); }
    forall e | e in w.engagements ensures e in w.history.engagements { assert EngagementOk(w, e); }
  }

  lemma JobLaterTransitive(u: World, w: World, v: World, j: JobId)
    requires Named(u) && Later(u, w) && Later(w, v)
    ensures JobLater(u, v, j)
  {
    assert JobLater(u, w, j) && JobLater(w, v, j) && ContractLater(u, w, j);
    if j in u.jobs && u.jobs[j].approval.Some? { assert ApprovalLater(u, w, u.jobs[j].approval.value); }
  }

  lemma LaterTransitive(u: World, w: World, v: World)
    requires Named(u) && Later(u, w) && Later(w, v)
    ensures Later(u, v)
  {
    forall e ensures EngagementLater(u, v, e) { assert EngagementLater(u, w, e) && EngagementLater(w, v, e); }
    forall j ensures JobLater(u, v, j) { JobLaterTransitive(u, w, v, j); }
    forall j ensures ContractLater(u, v, j) { assert ContractLater(u, w, j) && ContractLater(w, v, j); }
    forall a ensures ApprovalLater(u, v, a) { assert ApprovalLater(u, w, a) && ApprovalLater(w, v, a); }
    forall c ensures ReceiptLater(u, v, c) { assert ReceiptLater(u, w, c) && ReceiptLater(w, v, c); }
  }

  // ----- Steps on one table -----

  /** Rows of one job move forward; nothing else is written. */
  lemma RowsLater(w: World, v: World, j: JobId)
    requires v == w.(jobs := v.jobs, executions := v.executions)
    requires forall k :: k != j ==> (k in w.jobs <==> k in v.jobs) && (k in w.jobs ==> w.jobs[k] == v.jobs[k])
    requires forall k :: k != j && k in w.executions ==> k in v.executions && w.executions[k] == v.executions[k]
    requires JobLater(w, v, j)
    ensures Later(w, v)
  {
    forall k ensures JobLater(w, v, k) {}
  }

  lemma AdjustLater(w: World, j: JobId, y: Execution)
    requires Inv(w) && j in w.executions && ExecutionLater(w.executions[j], y)
    requires y.expiresAt == w.executions[j].expiresAt || (HasCeiling(w, j) ==> y.expiresAt <= LeaseCeiling(w, j))
             || j !in w.contracts
    ensures Later(w, WithExecution(w, j, y))
  {
    RowsLater(w, WithExecution(w, j, y), j);
  }

  lemma StatusLater(w: World, j: JobId, status: Status, completedAt: Option<Instant>)
    requires Inv(w) && j in w.jobs && (Finished(w.jobs[j].status) ==> status == w.jobs[j].status) && j !in w.executions
    ensures Later(w, WithJob(w, j, w.jobs[j].(status := status, completedAt := completedAt)))
  {
    RowsLater(w, WithJob(w, j, w.jobs[j].(status := status, completedAt := completedAt)), j);
  }

  lemma TerminateLater(w: World, j: JobId, outcome: Outcome, at: Instant)
    requires Inv(w) && j in w.jobs && j in w.executions && !w.executions[j].phase.Ended?
    requires outcome == Completed ==> w.executions[j].phase == Active
    ensures Later(w, Terminated(w, j, outcome, at))
  {
    assert ExecutionOk(w, j);
    RowsLater(w, Terminated(w, j, outcome, at), j);
  }

  /** The clock and the receipts move forward; nothing else is written. */
  lemma ReceiptsLater(w: World, v: World)
    requires v == w.(observed := v.observed, results := v.results, stops := v.stops)
    requires w.observed.Some? ==> v.observed.Some? && w.observed.value <= v.observed.value
    requires forall c {:trigger ReceiptLater(w, v, c)} :: ReceiptLater(w, v, c)
    ensures Later(w, v)
  {
  }

  lemma ClockLater(w: World, t: Instant)
    requires w.observed.Some? ==> w.observed.value <= t
    ensures Later(w, w.(observed := Some(t)))
  {
    ReceiptsLater(w, w.(observed := Some(t)));
  }

  // ----- Each event moves forward -----

  lemma PatchLater(w: World, j: JobId, status: Status, now: Instant)
    requires Inv(w) && PatchJob(w, j, status, now).Success?
    ensures Later(w, PatchJob(w, j, status, now).value.world)
  {
    if j in w.executions {
      AdjustLater(w, j, Braked(w.executions[j]));
    } else if status == w.jobs[j].status && status != Running {
      LaterReflexive(w);
    } else {
      StatusLater(w, j, status, PatchJob(w, j, status, now).value.world.jobs[j].completedAt);
    }
  }

  lemma RefreshLater(w: World, j: JobId, holder: Holder, system: Instant, renewal: Instant)
    requires Inv(w) && LegacyRefresh(w, j, holder, system, renewal).Success?
    ensures Later(w, LegacyRefresh(w, j, holder, system, renewal).value.world)
  {
    assert JobOk(w, j);
    AdjustLater(w, j, LegacyRefresh(w, j, holder, system, renewal).value.world.executions[j]);
  }

  lemma LegacyFinishLater(w: World, j: JobId, holder: Holder, outcome: FinishOutcome, system: Instant, now: Instant)
    requires Inv(w) && LegacyFinish(w, j, holder, outcome, system, now).Success?
    ensures Later(w, LegacyFinish(w, j, holder, outcome, system, now).value.world)
  {
    LegacyFinishShape(w, j, holder, outcome, system, now);
    var x, y := w.executions[j], LegacyFinish(w, j, holder, outcome, system, now).value.world.executions[j];
    assert JobOk(w, j) && ExecutionOk(w, j);
    if x.phase.Ended? {
      LaterReflexive(w);
    } else if y.phase.Ended? {
      TerminateLater(w, j, outcome.outcome, now);
    } else {
      AdjustLater(w, j, y);
    }
  }

  lemma StoreLater(w: World, j: JobId, u: Upload)
    requires Inv(w) && Known(w, j) && StoreResult(w, j, u).Success?
    ensures Later(w, StoreResult(w, j, u).value.world)
  {
    if j in w.receipts {
      LaterReflexive(w);
    } else {
      var history := w.history.(evidence := w.history.evidence + multiset{j});
      var v := w.(receipts := w.receipts[j := u.payload.full], history := history);
      forall k ensures JobLater(w, v, k) {}
    }
  }

  lemma DeleteJobLater(w: World, j: JobId)
    requires Inv(w) && DeleteJob(w, j).Success?
    ensures Later(w, DeleteJob(w, j).value.world)
  {
    var v := DeleteJob(w, j).value.world;
    forall k ensures JobLater(w, v, k) {}
  }

  lemma FinishLater(w: World, q: FinishRequest)
    requires Inv(w) && Finish(w, q).Success?
    ensures Later(w, Finish(w, q).value.world)
  {
    var j, v := q.owned.job, Finish(w, q).value.world;
    if w.results[q.owned.binding.contract].outcome.Some? {
      LaterReflexive(w);
    } else {
      var u := Terminated(w, j, q.outcome, q.finished);
      TerminateLater(w, j, q.outcome, q.finished);
      ReceiptsLater(u, v);
      InvNamed(w);
      LaterTransitive(w, u, v);
    }
  }

  lemma ReportStopLater(w: World, q: StopRequest)
    requires Inv(w) && ReportStop(w, q).Success?
    ensures Later(w, ReportStop(w, q).value.world)
  {
    var j, v := q.owned.job, ReportStop(w, q).value.world;
    if q.owned.binding.contract in w.stops {
      LaterReflexive(w);
    } else {
      var u := Terminated(w, j, CauseOutcome(q.cause), q.finished);
      TerminateLater(w, j, CauseOutcome(q.cause), q.finished);
      ReceiptsLater(u, v);
      InvNamed(w);
      LaterTransitive(w, u, v);
    }
  }

  lemma SubmitLater(w: World, q: SubmitRequest)
    requires Inv(w) && Submit(w, q).Success?
    ensures Later(w, Submit(w, q).value.world)
  {
    var v := Submit(w, q).value.world;
    if q.owned.binding.contract in w.results {
      LaterReflexive(w);
    } else {
      StoreLater(w, q.owned.job, q.upload);
      var u := StoreResult(w, q.owned.job, q.upload).value.world;
      ReceiptsLater(u, v);
      InvNamed(w);
      LaterTransitive(w, u, v);
    }
  }

  // ----- Leases -----

  lemma {:induction false} EarliestIsEarliest(first: Instant, rest: seq<Instant>)
    ensures var m := Earliest(first, rest);
            && m <= first && (forall i :: 0 <= i < |rest| ==> m <= rest[i])
            && (m == first || m in rest)
  {
    if rest != [] {
      EarliestIsEarliest(first, rest[..|rest| - 1]);
    }
  }

  lemma WholeSecondsBelow(d: int)
    ensures WholeSeconds(d) > 0 ==> SECOND * WholeSeconds(d) <= d
  {
  }

  /** A renewal that commits lands strictly after its instant, at most a lease ahead, and under every ceiling. */
  lemma RenewalBounded(w: World, q: LiveRequest)
    requires Renew(w, q).Success?
    ensures HasCeiling(w, q.job)
    ensures var x, y := w.executions[q.job], Renew(w, q).value.world.executions[q.job];
            var instant := Max(q.clock.instant, q.clock.instantSystem);
            && instant < y.expiresAt <= instant + LEASE && y.expiresAt <= LeaseCeiling(w, q.job)
            && instant < x.expiresAt && y == x.(expiresAt := y.expiresAt)
            && Max(q.clock.last, q.clock.lastSystem) < y.expiresAt
  {
    WholeSecondsBelow(LeaseCeiling(w, q.job) - Max(q.clock.instant, q.clock.instantSystem));
  }

  lemma RenewLater(w: World, q: LiveRequest)
    requires Inv(w) && Renew(w, q).Success?
    ensures Later(w, Renew(w, q).value.world)
  {
    RenewalBounded(w, q);
    var v := Renew(w, q).value.world;
    var u := WithExecution(w, q.job, v.executions[q.job]);
    AdjustLater(w, q.job, v.executions[q.job]);
    ClockLater(u, q.clock.relocked);
    InvNamed(w);
    LaterTransitive(w, u, v);
  }

  // ----- Engagements, job creation, claims, approvals, contracts -----

  /** Rows of one engagement move forward; nothing else is written. */
  lemma EngagementRowLater(w: World, e: EngagementId, h: Engagement)
    requires EngagementLater(w, WithEngagement(w, e, h), e)
    ensures Later(w, WithEngagement(w, e, h))
  {
    var v := WithEngagement(w, e, h);
    forall f ensures EngagementLater(w, v, f) {}
  }

  lemma EditLater(w: World, e: EngagementId, edit: Edit)
    requires EditEngagement(w, e, edit).Success?
    ensures Later(w, EditEngagement(w, e, edit).value.world)
  {
    EditAdvances(w.engagements[e], edit);
    EngagementRowLater(w, e, Edited(w.engagements[e], edit).value);
  }

  lemma LimitsLater(w: World, e: EngagementId, limits: Limits)
    requires e in w.engagements
    ensures Later(w, WithEngagement(w, e, WithLimits(w.engagements[e], limits)))
  {
    EngagementRowLater(w, e, WithLimits(w.engagements[e], limits));
  }

  lemma ConcurrencyLater(w: World, e: EngagementId, limit: Option<Limit>)
    requires ConfigureConcurrency(w, e, limit).Success?
    ensures Later(w, ConfigureConcurrency(w, e, limit).value.world)
  {
    hide Idle, Later, WithLimits;
    LimitsLater(w, e, w.engagements[e].authority.limits.(concurrency := limit));
  }

  lemma TargetsLater(w: World, e: EngagementId, limit: Option<Limit>)
    requires ConfigureTargets(w, e, limit).Success?
    ensures Later(w, ConfigureTargets(w, e, limit).value.world)
  {
    hide Idle, Later, WithLimits;
    LimitsLater(w, e, w.engagements[e].authority.limits.(targets := limit));
  }

  lemma DurationLater(w: World, e: EngagementId, limit: Option<Limit>)
    requires ConfigureDuration(w, e, limit).Success?
    ensures Later(w, ConfigureDuration(w, e, limit).value.world)
  {
    hide Idle, Later, WithLimits;
    LimitsLater(w, e, w.engagements[e].authority.limits.(duration := limit));
  }

  lemma ReleaseLater(w: World, e: EngagementId)
    requires ReleaseStopWork(w, e).Success?
    ensures Later(w, ReleaseStopWork(w, e).value.world)
  {
    EngagementRowLater(w, e, ReleaseStopWork(w, e).value.world.engagements[e]);
  }

  lemma EngagementLifeLater(w: World, e: EngagementId, owner: UserId, kind: string, status: string)
    ensures CreateEngagement(w, e, owner, kind, status).Success? ==>
              Later(w, CreateEngagement(w, e, owner, kind, status).value.world)
    ensures DeleteEngagement(w, e).Success? ==> Later(w, DeleteEngagement(w, e).value.world)
  {
    if CreateEngagement(w, e, owner, kind, status).Success? {
      var v := CreateEngagement(w, e, owner, kind, status).value.world;
      forall j ensures JobLater(w, v, j) {}
    }
    if DeleteEngagement(w, e).Success? {
      var v := DeleteEngagement(w, e).value.world;
      forall j ensures JobLater(w, v, j) {}
    }
  }

  lemma StopWorkLater(w: World, e: EngagementId)
    requires Inv(w) && EngageStopWork(w, e).Success?
    ensures Later(w, EngageStopWork(w, e).value.world)
  {
    var v := EngageStopWork(w, e).value.world;
    forall j ensures JobLater(w, v, j) {}
  }

  lemma AddLater(w: World, e: EngagementId, j: JobId, spec: JobSpec, parent: Option<JobId>)
    requires j !in w.history.jobs && j !in w.jobs
    ensures Later(w, Added(w, e, j, spec, parent))
  {
    var v := Added(w, e, j, spec, parent);
    forall k ensures JobLater(w, v, k) {}
  }

  lemma ChainStepLater(w: World, u: World, e: EngagementId, j: JobId, spec: JobSpec, parent: Option<JobId>)
    requires Inv(w) && Later(w, u) && j !in u.history.jobs && j !in u.jobs
    ensures Later(w, Added(u, e, j, spec, parent))
  {
    AddLater(u, e, j, spec, parent);
    InvNamed(w);
    LaterTransitive(w, u, Added(u, e, j, spec, parent));
  }

  lemma {:induction false} ChainLater(w: World, e: EngagementId, stages: seq<(JobId, JobSpec)>)
    requires Inv(w) && e in w.engagements
    requires forall i :: 0 <= i < |stages| ==> stages[i].0 !in w.history.jobs && stages[i].0 !in w.jobs
    requires forall i, k :: 0 <= i < k < |stages| ==> stages[i].0 != stages[k].0
    ensures Later(w, Chained(w, e, stages))
  {
    hide Inv, Later;
    if stages == [] {
      LaterReflexive(w);
    } else {
      var front := stages[..|stages| - 1];
      ChainLater(w, e, front);
      ChainKeeps(w, e, front);
      var u := Chained(w, e, front);
      var (j, spec) := stages[|stages| - 1];
      assert NotAStage(front, j);
      var parent := if front == [] then None else Some(front[|front| - 1].0);
      assert Chained(w, e, stages) == Added(u, e, j, spec, parent);
      ChainStepLater(w, u, e, j, spec, parent);
    }
  }

  lemma PipelineLater(w: World, e: EngagementId, stages: seq<(JobId, JobSpec)>)
    requires Inv(w) && CreatePipeline(w, e, stages).Success?
    ensures Later(w, CreatePipeline(w, e, stages).value.world)
  {
    ChainLater(w, e, stages);
  }

  lemma PollLater(w: World, visible: set<EngagementId>, now: Instant)
    requires Inv(w)
    ensures Later(w, Poll(w, visible, now))
  {
    var v := Poll(w, visible, now);
    forall j ensures JobLater(w, v, j) {
      if j in w.jobs && w.jobs[j].status == Pending { PendingHoldsNothing(w, j); }
    }
  }

  lemma ClaimWritesLater(w: World, v: World, j: JobId, targets: nat, seconds: nat)
    requires Inv(w) && Known(w, j) && w.jobs[j].status == Pending && ClaimWrites(w, v, j, targets, seconds)
    requires v.jobs[j] == w.jobs[j].(status := Running, startedAt := v.jobs[j].startedAt,
                          snapshot := v.jobs[j].snapshot)
    requires v.observed == w.observed
    requires forall k {:trigger ContractLater(w, v, k)} :: ContractLater(w, v, k)
    requires forall a {:trigger ApprovalLater(w, v, a)} :: ApprovalLater(w, v, a)
    ensures Later(w, v)
  {
    PendingHoldsNothing(w, j);
    forall k ensures JobLater(w, v, k) {}
    forall e ensures EngagementLater(w, v, e) {}
  }

  lemma LegacyClaimLater(w: World, j: JobId, control: Option<Control>, now: Instant, system: Instant)
    requires Inv(w) && LegacyClaim(w, j, control, now, system).Success?
    ensures Later(w, LegacyClaim(w, j, control, now, system).value.world)
  {
    hide Inv, Later, CheckCapacity;
    var job := w.jobs[j];
    var g := w.engagements[job.engagement];
    var binding := if control.Some? then control.value.binding else None;
    var seconds := if control.Some? then control.value.seconds else None;
    var t := ChargeTargets(g, job.tool, ClaimSnapshot(w, j).value, binding).value;
    ClaimWritesLater(w, LegacyClaim(w, j, control, now, system).value.world, j, t, AllocateDuration(g, seconds).value);
  }

  lemma ManagedStartLater(w: World, j: JobId, snapshot: CaseSpec, at: Instant, x: Execution, c: Contract)
    requires Inv(w) && Known(w, j) && w.jobs[j].status == Pending && c.approval in w.approvals
    requires c.ordinal == w.approvals[c.approval].issued + 1
    ensures Later(w, ManagedStart(w, j, snapshot, at, x, c))
  {
    PendingHoldsNothing(w, j);
    ClaimWritesLater(w, ManagedStart(w, j, snapshot, at, x, c), j, x.targetCharge, x.seconds);
  }

  lemma ManagedClaimLater(w: World, q: ClaimRequest)
    requires Inv(w) && ManagedClaim(w, q).Success?
    ensures Later(w, ManagedClaim(w, q).value.world)
  {
    ManagedClaimShape(w, q);
    ManagedClaimTimes(w, q);
    InvNamed(w);
    hide ManagedClaim, Inv, Later, Affordable, CapacityFits, ContractIdTaken;
    var r := ManagedClaim(w, q).value;
    var x, c := r.reply.execution, r.reply.contract;
    var snapshot := w.engagements[w.jobs[q.job].engagement].cases[w.jobs[q.job].testCase.value];
    var u := ManagedStart(w, q.job, snapshot, q.started, x, c);
    ManagedStartLater(w, q.job, snapshot, q.started, x, c);
    ClockLater(u, q.relocked);
    LaterTransitive(w, u, r.world);
  }

  /** Both clock checks of a claim hold: time seen before it is not after its own samples. */
  lemma ManagedClaimTimes(w: World, q: ClaimRequest)
    requires ManagedClaim(w, q).Success?
    ensures w.observed.Some? && w.observed.value <= q.locked <= q.relocked
  {
    hide ClaimPermission, CheckEnvelope, CheckCapacity, ChargeTargets, AllocateDuration;
  }

  lemma RegisteredLater(w: World, j: JobId, id: ApprovalId, row: Approval)
    requires Inv(w) && j in w.jobs && w.jobs[j].status == Pending && id !in w.approvals
    ensures Later(w, WithApproval(w, j, id, row))
  {
    hide JobLater;
    PendingHoldsNothing(w, j);
    forall k ensures JobLater(w, WithApproval(w, j, id, row), k) { RegisteredJobLater(w, j, id, row, k); }
  }

  lemma RegisteredJobLater(w: World, j: JobId, id: ApprovalId, row: Approval, k: JobId)
    requires j in w.jobs && w.jobs[j].status == Pending && j !in w.executions
    ensures JobLater(w, WithApproval(w, j, id, row), k)
  {
  }

  lemma RegisterLater(w: World, q: RegisterRequest)
    requires Inv(w) && Register(w, q).Success?
    ensures Later(w, Register(w, q).value.world)
  {
    RegisterShape(w, q);
    InvNamed(w);
    hide Register, FitsJob, Inv, Later;
    if q.envelope.id in w.approvals {
      ClockLater(w, q.locked);
    } else {
      var row := Approval(q.job, w.jobs[q.job].engagement, q.authorization, q.actor, q.envelope, q.caseHash, 0, false);
      var u := WithApproval(w, q.job, q.envelope.id, row);
      RegisteredLater(w, q.job, q.envelope.id, row);
      ClockLater(u, q.locked);
      LaterTransitive(w, u, Register(w, q).value.world);
    }
  }

  lemma RevokeLater(w: World, j: JobId, actor: UserId, locked: Instant)
    requires Revoke(w, j, actor, locked).Success?
    ensures Later(w, Revoke(w, j, actor, locked).value.world)
  {
    var v := Revoke(w, j, actor, locked).value.world;
    forall k ensures JobLater(w, v, k) {}
  }

  lemma ConsumeLater(w: World, q: LiveRequest, sha: Digest)
    requires Consume(w, q, sha).Success?
    ensures Later(w, Consume(w, q, sha).value.world)
  {
    var v := Consume(w, q, sha).value.world;
    forall k ensures JobLater(w, v, k) {}
  }
}
