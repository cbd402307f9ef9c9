/** The tables as mutable state, and every route as the in-place code that runs in one transaction.

  A route may refuse after it has already written; `Transaction` then rolls the tables back. Each route
  is proved to do exactly what its step function says, so everything proved of steps holds of routes.
 */
module Database {
  import opened Wrappers
  import opened Records
  import opened Budgets
  import opened AuthorityEdits
  import opened EditLoops
  import opened JobSteps
  import opened ManagedSteps
  import opened Protocol
  import opened ClaimPreservation
  import opened Evolution
  import opened Runs
  import opened Guarantees

  type Answer = Result<Reply, Reason>

  function Answered(step: Step): Answer {
    if step.Success? then Success(step.value.reply) else Failure(step.error)
  }

  function FailedAt(job: Job, now: Instant): Job {
    job.(status := Failed, completedAt := Some(now))
  }

  /** Failing the orphans first and the jobs without a case second is one poll. */
  lemma TwoPasses(w: World, visible: set<EngagementId>, now: Instant, pending: seq<JobId>, eligible: seq<JobId>,
                  first: map<JobId, Job>, second: map<JobId, Job>)
    requires forall j :: j in pending <==> j in w.jobs && w.jobs[j].engagement in visible && w.jobs[j].status == Pending
    requires first.Keys == w.jobs.Keys == second.Keys
    requires forall k :: k in w.jobs ==>
                           first[k] == if k in pending && Orphaned(w, k) then FailedAt(w.jobs[k], now) else w.jobs[k]
    requires forall k :: k in eligible <==> k in pending && Unblocked(w, k)
    requires forall k :: k in w.jobs ==>
                           second[k] == if k in eligible && CaseGone(w, k) then FailedAt(first[k], now) else first[k]
    ensures second == Poll(w, visible, now).jobs
  {
    var v := Poll(w, visible, now);
    forall k | k in w.jobs ensures second[k] == v.jobs[k] {
      assert k in pending && Orphaned(w, k) ==> !Unblocked(w, k);
    }
  }

  // ----- What the read-only gates establish -----

  /** What was charged for targets plays no part in allocating seconds. */
  lemma AllocationUnmoved(g: Engagement, h: Engagement, seconds: Option<Seconds>)
    requires h.authority == g.authority && h.durationAllocated == g.durationAllocated
    ensures AllocateDuration(h, seconds) == AllocateDuration(g, seconds)
  {
  }

  /** Ending an execution moves nothing the completion gate looks at. */
  lemma CompletableUnmoved(w: World, v: World, j: JobId, instant: Instant, rechecked: Instant)
    requires Known(w, j) && j in w.executions && w.jobs[j].approval.Some? && w.jobs[j].approval.value in w.approvals
    requires Known(v, j) && j in v.executions && v.approvals == w.approvals
    requires v.jobs[j].approval == w.jobs[j].approval && v.jobs[j].startedAt == w.jobs[j].startedAt
    requires v.executions[j].seconds == w.executions[j].seconds
             && v.executions[j].expiresAt == w.executions[j].expiresAt
    ensures CheckCompletable(v, j, instant, rechecked) == CheckCompletable(w, j, instant, rechecked)
  {
    hide Ceiling, CheckEnvelope;
  }

  lemma AuthorizeFacts(w: World, q: LiveRequest)
    ensures Authorize(w, q).Success? ==>
              Known(w, q.job) && q.job in w.executions && q.job in w.contracts
              && Authorize(w, q).value == w.(observed := Authorize(w, q).value.observed)
  {
    hide CheckEnvelope, Projection;
  }

  lemma OwnedFacts(w: World, o: OwnedRequest)
    requires OwnedConsumed(w, o).Pass?
    ensures Known(w, o.job) && o.job in w.executions && o.job in w.contracts
    ensures w.jobs[o.job].approval.Some? && w.jobs[o.job].approval.value in w.approvals
  {
  }

  lemma RetainedFacts(w: World, o: OwnedRequest)
    ensures RetainedResult(w, o).Success? && RetainedResult(w, o).value.Some? ==>
              o.binding.contract in w.results && RetainedResult(w, o).value.value == w.results[o.binding.contract]
  {
  }

  lemma StoreKeepsResults(w: World, j: JobId, u: Upload)
    requires Known(w, j) && StoreResult(w, j, u).Success?
    ensures StoreResult(w, j, u).value.world.results == w.results
    ensures StoreResult(w, j, u).value.world.observed == w.observed
  {
  }

  /** The least of a context's ceilings, found by scanning the credential grants. */
  method LeastCeiling(context: Context, startedAt: Instant, seconds: nat) returns (least: Instant)
    ensures least == Ceiling(context, startedAt, seconds)
  {
    least := Min(context.expiresAt, Min(context.testingEnd, startedAt + SECOND * Min(seconds, context.maxDuration)));
    for i := 0 to |context.grants|
      invariant least == Earliest(Min(Min(context.expiresAt, context.testingEnd),
                                      startedAt + SECOND * Min(seconds, context.maxDuration)), context.grants[..i])
    {
      assert context.grants[..i + 1][..i] == context.grants[..i];
      least := Min(least, context.grants[i]);
    }
    assert context.grants[..|context.grants|] == context.grants;
  }

  // ----- Managed operations -----

  /** The store a managed operation leaves. */
  function Operated(w: World, begun: Instant, ev: Event, ended: Instant): World {
    if Transact(w, EvObserve(begun)).Failure? then w
    else
      var u := Next(w, EvObserve(begun));
      if Transact(u, ev).Success? then Next(u, ev) else Next(u, EvObserve(ended))
  }

  /** The operation was refused, at its first clock check or by its transaction. */
  predicate Refused(w: World, begun: Instant, ev: Event) {
    Transact(w, EvObserve(begun)).Failure? || Transact(Next(w, EvObserve(begun)), ev).Failure?
  }

  predicate SameButClock(w: World, v: World) {
    && v == w.(observed := v.observed)
    && (w.observed.Some? ==> v.observed.Some? && w.observed.value <= v.observed.value)
  }

  lemma ObserveOnlyClock(w: World, t: Instant)
    ensures SameButClock(w, Next(w, EvObserve(t)))
    ensures Transact(w, EvObserve(t)).Success? ==> Next(w, EvObserve(t)).observed == Some(t)
  {
  }

  /** Refusal is atomic: a managed operation that refuses at any of its checks leaves every row as it
      was, whatever it had written before refusing, and only ever moves the clock forward. */
  lemma OperationAtomic(w: World, begun: Instant, ev: Event, ended: Instant)
    requires Refused(w, begun, ev)
    ensures SameButClock(w, Operated(w, begun, ev, ended))
  {
    hide Transact, Next;
    ObserveOnlyClock(w, begun);
    ObserveOnlyClock(Next(w, EvObserve(begun)), ended);
  }

  /** Committed or refused, time only moves forward, an operation is a run of its transactions, and one
      that passed its first clock check leaves a time at or after every earlier one. */
  lemma OperationIsRun(w: World, begun: Instant, ev: Event, ended: Instant)
    requires Inv(w)
    ensures var v := Operated(w, begun, ev, ended);
            && Leads(w, v) && Inv(v) && Later(w, v)
            && (Transact(w, EvObserve(begun)).Success? ==> v.observed.Some? && begun <= v.observed.value)
  {
    hide Transact, Next, Inv;
    var u := Next(w, EvObserve(begun));
    var v := Operated(w, begun, ev, ended);
    ObserveOnlyClock(w, begun);
    assert Run(w, []) == w;
    assert [EvObserve(begun)][..0] == [];
    assert Run(w, [EvObserve(begun)]) == u;
    assert [EvObserve(begun), ev][..1] == [EvObserve(begun)] == [EvObserve(begun), EvObserve(ended)][..1];
    assert Run(w, [EvObserve(begun), ev]) == Next(u, ev);
    assert Run(w, [EvObserve(begun), EvObserve(ended)]) == Next(u, EvObserve(ended));
    NextKeeps(w, EvObserve(begun));
    NextLater(u, ev);
    NextLater(u, EvObserve(ended));
    LeadsLater(w, v);
  }

  class Tables {
    var engagements: map<EngagementId, Engagement>
    var jobs: map<JobId, Job>
    var executions: map<JobId, Execution>
    var receipts: map<JobId, Digest>
    var approvals: map<ApprovalId, Approval>
    var contracts: map<JobId, Contract>
    var results: map<ContractId, ManagedResult>
    var stops: map<ContractId, ManagedStop>
    var observed: Option<Instant>
    var history: History

    constructor ()
      ensures Store() == EMPTY
    {
      engagements, jobs, executions, receipts := map[], map[], map[], map[];
      approvals, contracts, results, stops := map[], map[], map[], map[];
      observed := None;
      history := History({}, {}, [], multiset{});
    }

    function Store(): World
      reads this
    {
      World(engagements, jobs, executions, receipts, approvals, contracts, results, stops, observed, history)
    }

    /** A route did what its step says: the same answer, and if it committed, the same tables. */
    predicate Did(step: Step, r: Answer)
      reads this
    {
      r == Answered(step) && (step.Success? ==> Store() == step.value.world)
    }

    // ----- Small writes shared by the routes -----

    method Advance(e: EngagementId)
      requires e in engagements
      modifies `engagements
      ensures engagements == old(engagements)[e := Advanced(old(engagements)[e])]
    {
      engagements := engagements[e := engagements[e].(revision := engagements[e].revision + 1)];
    }

    method LockTime(t: Instant) returns (r: Check<Reason>)
      modifies `observed
      ensures r == Need(old(observed).Some? && old(observed).value <= t, ClockRollback)
      ensures r.Pass? ==> observed == Some(t)
    {
      if observed.None? || t < observed.value { return Refuse(ClockRollback); }
      observed := Some(t);
      return Pass;
    }

    method EndExecution(j: JobId, outcome: Outcome, at: Instant)
      requires j in jobs && j in executions
      modifies `jobs, `executions
      ensures Store() == Terminated(old(Store()), j, outcome, at)
    {
      executions := executions[j := executions[j].(phase := Ended(outcome))];
      executions := executions[j := executions[j].(reserved := false)];
      jobs := jobs[j := jobs[j].(status := if outcome == Completed then Done else Failed)];
      jobs := jobs[j := jobs[j].(completedAt := Some(at))];
      assert executions == old(executions)[j := old(executions)[j].(phase := Ended(outcome), reserved := false)];
      assert jobs == old(jobs)[j := old(jobs)[j].(status := FinishedStatus(outcome), completedAt := Some(at))];
    }

    // ----- Engagements -----

    method CreateEngagementRow(e: EngagementId, owner: UserId, kind: string, status: string) returns (r: Answer)
      modifies this
      ensures Did(CreateEngagement(old(Store()), e, owner, kind, status), r)
    {
      var unused := e !in history.engagements && e !in engagements;
      :- Need(unused, AlreadyExists);
      var a := Authority(kind, status, None, None, None, map[], map[], false, Limits(None, None, None));
      engagements := engagements[e := Engagement(owner, a, map[], map[], 0, 0, 0)];
      history := history.(engagements := history.engagements + {e});
      return Success(Plain);
    }

    method ConfigureConcurrencyLimit(e: EngagementId, limit: Option<Limit>) returns (r: Answer)
      modifies this
      ensures Did(ConfigureConcurrency(old(Store()), e, limit), r)
    {
      var found := e in engagements;
      :- Need(found, NotFound);
      :- Need(Idle(Store(), e), WorkUnresolved);
      if engagements[e].authority.limits.concurrency != limit { Advance(e); }
      var g := engagements[e];
      var limits := g.authority.limits.(concurrency := limit);
      engagements := engagements[e := g.(authority := g.authority.(limits := limits))];
      return Success(Plain);
    }

    method ConfigureTargetLimit(e: EngagementId, limit: Option<Limit>) returns (r: Answer)
      modifies this
      ensures Did(ConfigureTargets(old(Store()), e, limit), r)
    {
      var found := e in engagements;
      :- Need(found, NotFound);
      :- Need(Idle(Store(), e), WorkUnresolved);
      var spent := engagements[e].targetsSpent;
      if (limit.None? && spent != 0) || (limit.Some? && limit.value < spent) { return Failure(BudgetSpent); }
      if engagements[e].authority.limits.targets != limit { Advance(e); }
      var g := engagements[e];
      var limits := g.authority.limits.(targets := limit);
      engagements := engagements[e := g.(authority := g.authority.(limits := limits))];
      return Success(Plain);
    }

    method ConfigureDurationLimit(e: EngagementId, limit: Option<Limit>) returns (r: Answer)
      modifies this
      ensures Did(ConfigureDuration(old(Store()), e, limit), r)
    {
      var found := e in engagements;
      :- Need(found, NotFound);
      :- Need(Idle(Store(), e), WorkUnresolved);
      var given := engagements[e].durationAllocated;
      if (limit.None? && given != 0) || (limit.Some? && limit.value < given) { return Failure(BudgetSpent); }
      if engagements[e].authority.limits.duration != limit { Advance(e); }
      var g := engagements[e];
      var limits := g.authority.limits.(duration := limit);
      engagements := engagements[e := g.(authority := g.authority.(limits := limits))];
      return Success(Plain);
    }

    method RemoveEngagement(e: EngagementId) returns (r: Answer)
      modifies this
      ensures Did(DeleteEngagement(old(Store()), e), r)
    {
      var found := e in engagements;
      :- Need(found, NotFound);
      if engagements[e].authority.limits.concurrency.Some? || ReservedJobs(Store(), e) != {} {
        :- Need(Idle(Store(), e), WorkUnresolved);
      }
      :- Need(engagements[e].targetsSpent == 0, BudgetSpent);
      :- Need(engagements[e].durationAllocated == 0, BudgetSpent);
      var gone := set j | j in jobs && jobs[j].engagement == e;
      engagements := engagements - {e};
      jobs := jobs - gone;
      executions := executions - gone;
      receipts := receipts - gone;
      return Success(Plain);
    }

    method PullBrake(e: EngagementId) returns (r: Answer)
      modifies this
      ensures Did(EngageStopWork(old(Store()), e), r)
    {
      var found := e in engagements;
      :- Need(found, NotFound);
      if !engagements[e].authority.stopWork {
        Advance(e);
        engagements := engagements[e := engagements[e].(authority := engagements[e].authority.(stopWork := true))];
      }
      var known, before := jobs, executions;
      executions := map j | j in before ::
        if j in known && known[j].engagement == e && before[j].phase == Active
        then before[j].(phase := CancelRequested) else before[j];
      assert engagements == EngageStopWork(old(Store()), e).value.world.engagements by {
        var g := old(engagements)[e];
        var stopped := if g.authority.stopWork then g else Advanced(g).(authority := g.authority.(stopWork := true));
        assert engagements == old(engagements)[e := stopped];
      }
      assert executions == EngageStopWork(old(Store()), e).value.world.executions by {
        ghost var u := EngageStopWork(old(Store()), e).value.world;
        assert executions.Keys == u.executions.Keys;
        assert forall j :: j in executions ==> executions[j] == u.executions[j];
      }
      return Success(Plain);
    }

    method ReleaseBrake(e: EngagementId) returns (r: Answer)
      modifies this
      ensures Did(ReleaseStopWork(old(Store()), e), r)
    {
      var found := e in engagements;
      :- Need(found, NotFound);
      if engagements[e].authority.stopWork { Advance(e); }
      engagements := engagements[e := engagements[e].(authority := engagements[e].authority.(stopWork := false))];
      return Success(Plain);
    }

    // ----- Authority edits -----

    method AddScopeItem(e: EngagementId, id: ScopeId, row: ScopeRow) returns (r: Answer)
      modifies this
      ensures Did(EditEngagement(old(Store()), e, AddScope(id, row)), r)
    {
      var found := e in engagements;
      :- Need(found, NotFound);
      Advance(e);
      var a := engagements[e].authority;
      :- Need(id !in a.scope, AlreadyExists);
      engagements := engagements[e := engagements[e].(authority := a.(scope := a.scope[id := row]))];
      return Success(Plain);
    }

    method DeleteScopeItem(e: EngagementId, id: ScopeId, excluded: bool) returns (r: Answer)
      modifies this
      ensures Did(EditEngagement(old(Store()), e, RemoveScope(id, excluded)), r)
    {
      var found := e in engagements;
      :- Need(found, NotFound);
      Advance(e);
      var a := engagements[e].authority;
      :- Need(id in a.scope && a.scope[id].excluded == excluded, NotFound);
      engagements := engagements[e := engagements[e].(authority := a.(scope := a.scope - {id}))];
      return Success(Plain);
    }

    /** Collect the rows whose (list side, value) is new, then insert them; the revision moves only if any is. */
    method ImportScopeItems(e: EngagementId, rows: seq<(ScopeId, ScopeRow)>) returns (r: Answer)
      modifies this
      ensures Did(EditEngagement(old(Store()), e, ImportScope(rows)), r)
    {
      hide Edited, FreshRows, Imported, ScopeWith;
      var found := e in engagements;
      :- Need(found, NotFound);
      var g := engagements[e];
      if !FreshRows(g.authority.scope, rows) { ImportRefused(g, rows); }
      :- Need(FreshRows(g.authority.scope, rows), AlreadyExists);
      var items := NewScopeItems(g.authority.scope, rows);
      ImportEdited(g, rows, items);
      if items != [] {
        Advance(e);
        InsertScopeItems(e, items);
      }
      return Success(Plain);
    }

    method InsertScopeItems(e: EngagementId, items: seq<(ScopeId, ScopeRow)>)
      requires e in engagements
      modifies `engagements
      ensures var g := old(engagements[e]);
              var scope := ScopeWith(g.authority.scope, items);
              engagements == old(engagements)[e := g.(authority := g.authority.(scope := scope))]
    {
      ghost var g := engagements[e];
      for i := 0 to |items|
        modifies `engagements
        invariant e in engagements
        invariant var scope := ScopeWith(g.authority.scope, items[..i]);
                  engagements == old(engagements)[e := g.(authority := g.authority.(scope := scope))]
      {
        assert items[..i + 1][..i] == items[..i];
        var a := engagements[e].authority;
        engagements := engagements[e := engagements[e].(authority := a.(scope := a.scope[items[i].0 := items[i].1]))];
      }
      assert items[..|items|] == items;
    }

    method CreateAuthorizationRow(e: EngagementId, id: AuthorizationId, grant: Grant, note: string) returns (r: Answer)
      modifies this
      ensures Did(EditEngagement(old(Store()), e, CreateAuthorization(id, grant, note)), r)
    {
      var found := e in engagements;
      :- Need(found, NotFound);
      Advance(e);
      var g := engagements[e];
      :- Need(id !in g.authority.grants, AlreadyExists);
      var grants := g.authority.grants[id := grant.(status := "active")];
      engagements := engagements[e := g.(authority := g.authority.(grants := grants), notes := g.notes[id := note])];
      return Success(Plain);
    }

    method UpdateAuthorizationRow(e: EngagementId, id: AuthorizationId, fields: seq<GrantField>) returns (r: Answer)
      modifies this
      ensures Did(EditEngagement(old(Store()), e, UpdateAuthorization(id, fields)), r)
    {
      hide WithGrantFields, WithGrantField, WithNotes, GrantTouched;
      var found := e in engagements;
      :- Need(found, NotFound);
      var g := engagements[e];
      :- Need(id in g.authority.grants, NotFound);
      var row, note, changed := RevisedGrant(g.authority.grants[id], if id in g.notes then g.notes[id] else "", fields);
      if changed { Advance(e); }
      var grants, notes := g.authority.grants[id := row], g.notes[id := note];
      engagements := engagements[e := engagements[e].(authority := g.authority.(grants := grants), notes := notes)];
      return Success(Plain);
    }

    method CreateTestCase(e: EngagementId, id: CaseId, spec: CaseSpec) returns (r: Answer)
      modifies this
      ensures Did(EditEngagement(old(Store()), e, CreateCase(id, spec)), r)
    {
      var found := e in engagements;
      :- Need(found, NotFound);
      :- Need(id !in engagements[e].cases, AlreadyExists);
      engagements := engagements[e := engagements[e].(cases := engagements[e].cases[id := spec])];
      return Success(Plain);
    }

    method UpdateTestCase(e: EngagementId, id: CaseId, spec: Option<CaseSpec>) returns (r: Answer)
      modifies this
      ensures Did(EditEngagement(old(Store()), e, UpdateCase(id, spec)), r)
    {
      var found := e in engagements;
      :- Need(found, NotFound);
      :- Need(id in engagements[e].cases, NotFound);
      assert engagements == engagements[e := engagements[e]];
      if spec.Some? && spec.value != engagements[e].cases[id] {
        Advance(e);
        engagements := engagements[e := engagements[e].(cases := engagements[e].cases[id := spec.value])];
      }
      return Success(Plain);
    }

    method DeleteTestCase(e: EngagementId, id: CaseId) returns (r: Answer)
      modifies this
      ensures Did(EditEngagement(old(Store()), e, RemoveCase(id)), r)
    {
      var found := e in engagements;
      :- Need(found, NotFound);
      :- Need(id in engagements[e].cases, NotFound);
      Advance(e);
      engagements := engagements[e := engagements[e].(cases := engagements[e].cases - {id})];
      return Success(Plain);
    }

    method UpdateEngagementRow(e: EngagementId, fields: seq<EngagementField>) returns (r: Answer)
      modifies this
      ensures Did(EditEngagement(old(Store()), e, UpdateEngagement(fields)), r)
    {
      hide WithEngagementFields, WithEngagementField, AuthorityTouched;
      var found := e in engagements;
      :- Need(found, NotFound);
      var a, changed := RevisedAuthority(engagements[e].authority, fields);
      if changed { Advance(e); }
      engagements := engagements[e := engagements[e].(authority := a)];
      return Success(Plain);
    }

    method ApproveRateCeiling(e: EngagementId, rate: int, pending: bool) returns (r: Answer)
      modifies this
      ensures Did(EditEngagement(old(Store()), e, ApplyRateCeiling(rate, pending)), r)
    {
      var found := e in engagements;
      :- Need(found, NotFound);
      :- Need(pending, ProposalResolved);
      Advance(e);
      engagements := engagements[e := engagements[e].(authority := engagements[e].authority.(maxRate := Some(rate)))];
      return Success(Plain);
    }

    // ----- Jobs -----

    method AddJob(e: EngagementId, j: JobId, spec: JobSpec, parent: Option<JobId>)
      modifies `jobs, `history
      ensures Store() == Added(old(Store()), e, j, spec, parent)
    {
      jobs := jobs[j := Job(e, spec.tool, spec.testCase, parent, Pending, spec.contractRequired, None, None, None,
                            None)];
      history := history.(jobs := history.jobs + {j});
    }

    method CreateJobRow(e: EngagementId, j: JobId, spec: JobSpec, parent: Option<JobId>) returns (r: Answer)
      modifies this
      ensures Did(CreateJob(old(Store()), e, j, spec, parent), r)
    {
      var found := e in engagements;
      :- Need(found, NotFound);
      :- Need(j !in history.jobs && j !in jobs, AlreadyExists);
      :- Need(spec.contractRequired ==> spec.tool == Gate, WrongTool);
      :- Need(CaseResolved(engagements[e], spec), CaseNotFound);
      if parent.Some? {
        :- Need(parent.value in jobs && jobs[parent.value].engagement == e, NotFound);
      }
      :- Need(!engagements[e].authority.stopWork, StopWorkActive);
      AddJob(e, j, spec, parent);
      return Success(Plain);
    }

    /** Every stage is validated before any is written; each then waits on the one before. */
    method CreatePipelineRows(e: EngagementId, stages: seq<(JobId, JobSpec)>) returns (r: Answer)
      modifies this
      ensures Did(CreatePipeline(old(Store()), e, stages), r)
    {
      hide Chained, CheckStages;
      var found := e in engagements;
      :- Need(found, NotFound);
      :- CheckStages(Store(), e, stages);
      AddStages(e, stages);
      return Success(Plain);
    }

    method AddStages(e: EngagementId, stages: seq<(JobId, JobSpec)>)
      modifies `jobs, `history
      ensures Store() == Chained(old(Store()), e, stages)
    {
      var previous: Option<JobId> := None;
      for i := 0 to |stages|
        invariant Store() == Chained(old(Store()), e, stages[..i])
        invariant previous == if i == 0 then None else Some(stages[i - 1].0)
      {
        assert stages[..i + 1][..i] == stages[..i];
        AddJob(e, stages[i].0, stages[i].1, previous);
        previous := Some(stages[i].0);
      }
      assert stages[..|stages|] == stages;
    }

    /** An active execution is asked to cancel; any other is left as it is. */
    method AskToCancel(j: JobId)
      requires j in executions
      modifies `executions
      ensures executions == old(executions)[j := Braked(old(executions)[j])]
    {
      assert executions == executions[j := executions[j]];
      if executions[j].phase == Active {
        executions := executions[j := executions[j].(phase := CancelRequested)];
      }
    }

    method SetStatus(j: JobId, status: Status, now: Instant)
      requires j in jobs
      modifies `jobs
      ensures var job := old(jobs)[j];
              var at := if status == Done || status == Failed then Some(now) else job.completedAt;
              jobs == old(jobs)[j := job.(status := status, completedAt := at)]
    {
      jobs := jobs[j := jobs[j].(status := status)];
      assert jobs == jobs[j := jobs[j]];
      if status == Done || status == Failed {
        jobs := jobs[j := jobs[j].(completedAt := Some(now))];
      }
    }

    /** A controlled execution can only be asked to cancel. */
    method UpdateControlled(j: JobId, status: Status, now: Instant) returns (r: Answer)
      requires Known(Store(), j) && j in executions
      modifies `executions
      ensures Did(PatchJob(old(Store()), j, status, now), r)
    {
      hide Braked, MayPatch;
      :- Need(status == Failed && jobs[j].status == Running, OwnedFinalizationRequired);
      AskToCancel(j);
      return Success(State(executions[j].phase));
    }

    method UpdateJob(j: JobId, status: Status, now: Instant) returns (r: Answer)
      modifies this
      ensures Did(PatchJob(old(Store()), j, status, now), r)
    {
      hide Braked, MayPatch;
      var found := Known(Store(), j);
      :- Need(found, NotFound);
      if j in executions {
        r := UpdateControlled(j, status, now);
        return;
      }
      if status == jobs[j].status && status != Running { return Success(Plain); }
      :- Need(MayPatch(jobs[j].status, status), InvalidStatus);
      SetStatus(j, status, now);
      return Success(Plain);
    }

    method RemoveJob(j: JobId) returns (r: Answer)
      modifies this
      ensures Did(DeleteJob(old(Store()), j), r)
    {
      var found := Known(Store(), j);
      :- Need(found, NotFound);
      if j in executions {
        :- Need(!executions[j].reserved, ReservedCapacity);
      }
      jobs := jobs - {j};
      executions := executions - {j};
      receipts := receipts - {j};
      return Success(Plain);
    }

    // ----- Budgets, charged in place -----

    method ChargeTargetBudget(e: EngagementId, tool: Tool, spec: Option<CaseSpec>, supplied: Option<TargetBinding>)
      returns (r: Result<nat, Reason>)
      requires e in engagements
      modifies `engagements
      ensures r == ChargeTargets(old(engagements[e]), tool, spec, supplied)
      ensures r.Success? ==>
                var g := old(engagements[e]);
                engagements == old(engagements)[e := g.(targetsSpent := g.targetsSpent + r.value)]
    {
      var limit := engagements[e].authority.limits.targets;
      assert engagements == engagements[e := engagements[e].(targetsSpent := engagements[e].targetsSpent + 0)];
      if limit.None? {
        return if supplied.Some? then Failure(PolicyRequired) else Success(0);
      }
      :- Need(supplied.Some? && tool == Gate && spec.Some?, TargetBindingRequired);
      var expected := ExpectedBinding(spec.value);
      :- Need(expected.Some?, UnsupportedTargetCase);
      :- Need(supplied == expected, TargetBindingMismatch);
      var count := |expected.value.origins|;
      :- Need(engagements[e].targetsSpent + count <= limit.value, TargetsExhausted);
      engagements := engagements[e := engagements[e].(targetsSpent := engagements[e].targetsSpent + count)];
      return Success(count);
    }

    method AllocateDurationBudget(e: EngagementId, seconds: Option<Seconds>) returns (r: Result<nat, Reason>)
      requires e in engagements
      modifies `engagements
      ensures r == AllocateDuration(old(engagements[e]), seconds)
      ensures r.Success? ==>
                var g := old(engagements[e]);
                engagements == old(engagements)[e := g.(durationAllocated := g.durationAllocated + r.value)]
    {
      var limit, given := engagements[e].authority.limits.duration, engagements[e].durationAllocated;
      assert engagements == engagements[e := engagements[e].(durationAllocated := given + 0)];
      if limit.None? {
        return if seconds.Some? then Failure(PolicyRequired) else Success(0);
      }
      :- Need(seconds.Some?, DurationRequired);
      var total := engagements[e].durationAllocated + seconds.value;
      :- Need(total <= limit.value, DurationExhausted);
      engagements := engagements[e := engagements[e].(durationAllocated := total)];
      var granted: nat := seconds.value;
      return Success(granted);
    }

    method StartJob(j: JobId, snapshot: Option<CaseSpec>, at: Instant)
      requires j in jobs
      modifies `jobs
      ensures jobs == old(jobs)[j := old(jobs[j]).(status := Running, startedAt := Some(at), snapshot := snapshot)]
    {
      jobs := jobs[j := jobs[j].(status := Running, startedAt := Some(at), snapshot := snapshot)];
    }

    /** Start the job, then charge both budgets; either charge may still refuse. */
    method StartAndCharge(j: JobId, snapshot: Option<CaseSpec>, at: Instant, binding: Option<TargetBinding>,
                          seconds: Option<Seconds>)
      returns (r: Result<(nat, nat), Reason>)
      requires Known(Store(), j)
      modifies `jobs, `engagements, `history
      ensures var w := old(Store()); var job := w.jobs[j]; var g := w.engagements[job.engagement];
              var t, d := ChargeTargets(g, job.tool, snapshot, binding), AllocateDuration(g, seconds);
              if t.Failure? then r == Failure(t.error)
              else if d.Failure? then r == Failure(d.error)
              else r == Success((t.value, d.value)) && Store() == Started(w, j, snapshot, at, t.value, d.value)
    {
      hide ChargeTargets, AllocateDuration;
      var e, tool := jobs[j].engagement, jobs[j].tool;
      StartJob(j, snapshot, at);
      var targets :- ChargeTargetBudget(e, tool, snapshot, binding);
      AllocationUnmoved(old(engagements)[e], engagements[e], seconds);
      var granted :- AllocateDurationBudget(e, seconds);
      history := history.(charges := history.charges + [Charge(e, j, targets, granted)]);
      return Success((targets, granted));
    }

    // ----- Attempts outside managed permission -----

    method ClaimJob(j: JobId, control: Option<Control>, now: Instant, system: Instant) returns (r: Answer)
      modifies this
      ensures Did(LegacyClaim(old(Store()), j, control, now, system), r)
    {
      var found := Known(Store(), j);
      :- Need(found, NotFound);
      var job := jobs[j];
      :- Need(!Managed(job), ManagedRequired);
      :- Need(job.status == Pending, InvalidStatus);
      :- CheckCapacity(Store(), job.engagement, control.Some? && control.value.concurrency);
      :- Need(!engagements[job.engagement].authority.stopWork, StopWorkActive);
      var snapshot :- ClaimSnapshot(Store(), j);
      var charged :- StartAndCharge(j, snapshot, now, if control.Some? then control.value.binding else None,
                                    if control.Some? then control.value.seconds else None);
      if control.None? { return Success(Claimed(None)); }
      var held := control.value;
      executions := executions[j := Execution(held.holder, system + LEASE, Active, held.concurrency, charged.0,
                                              charged.1)];
      return Success(Claimed(Some(executions[j])));
    }

    method RefreshExecution(j: JobId, holder: Holder, system: Instant, renewal: Instant) returns (r: Answer)
      modifies this
      ensures Did(LegacyRefresh(old(Store()), j, holder, system, renewal), r)
    {
      var found := Owned(Store(), j, holder);
      :- Need(found, NotFound);
      :- Need(!Managed(jobs[j]), ManagedRequired);
      var x := executions[j];
      if engagements[jobs[j].engagement].authority.stopWork && x.phase == Active { x := x.(phase := CancelRequested); }
      if x.expiresAt <= system && x.phase == Active { x := x.(phase := Uncertain); }
      var go := x.phase == Active && jobs[j].status == Running;
      if go { x := x.(expiresAt := renewal + LEASE); }
      executions := executions[j := x];
      return Success(Action(go));
    }

    method FinishExecution(j: JobId, holder: Holder, outcome: FinishOutcome, system: Instant, now: Instant)
      returns (r: Answer)
      modifies this
      ensures Did(LegacyFinish(old(Store()), j, holder, outcome, system, now), r)
    {
      var found := Owned(Store(), j, holder);
      :- Need(found, NotFound);
      :- Need(!Managed(jobs[j]), ManagedRequired);
      var x := executions[j];
      if x.phase.Ended? {
        :- Need(outcome == Definite(x.phase.outcome), AlreadyFinalized);
        return Success(State(x.phase));
      }
      if outcome == Definite(Completed)
         && (x.phase != Active || x.expiresAt <= system || engagements[jobs[j].engagement].authority.stopWork)
      {
        executions := executions[j := x.(phase := CancelRequested)];
        return Success(Conflict);
      }
      if outcome == Indefinite {
        executions := executions[j := x.(phase := Uncertain)];
        return Success(State(Uncertain));
      }
      EndExecution(j, outcome.outcome, now);
      return Success(State(Ended(outcome.outcome)));
    }

    // ----- Evidence -----

    method StoreGateResult(j: JobId, u: Upload) returns (r: Answer)
      requires Known(Store(), j)
      modifies `receipts, `history
      ensures Did(StoreResult(old(Store()), j, u), r)
    {
      if j in receipts {
        if receipts[j] != u.payload.full {
          :- Need(receipts[j] == u.payload.legacy, DifferentUpload);
        }
        return Success(Stored(true));
      }
      var spec := AuthoritativeSpec(Store(), j);
      if jobs[j].snapshot.Some? && u.caseHash.Some? {
        :- Need(u.caseHash.value == jobs[j].snapshot.value.hash, ResultCaseMismatch);
      }
      if spec.Some? && u.ref.Some? {
        :- Need(u.ref.value == spec.value.ref, ResultCaseMismatch);
      }
      history := history.(evidence := history.evidence + multiset{j});
      receipts := receipts[j := u.payload.full];
      return Success(Stored(false));
    }

    method UploadGateResult(j: JobId, u: Upload) returns (r: Answer)
      modifies this
      ensures Did(UploadResult(old(Store()), j, u), r)
    {
      var found := Known(Store(), j);
      :- Need(found, NotFound);
      :- Need(!Managed(jobs[j]), ManagedRequired);
      :- Need(jobs[j].tool == Gate, WrongTool);
      r := StoreGateResult(j, u);
    }

    // ----- Polling -----

    method ListPending(visible: set<EngagementId>) returns (pending: seq<JobId>)
      ensures forall j :: j in pending <==> j in jobs && jobs[j].engagement in visible && jobs[j].status == Pending
    {
      pending := Listed(set j | j in jobs && jobs[j].engagement in visible && jobs[j].status == Pending);
    }

    /** Fail the jobs whose parent failed or vanished; keep back the ones whose parent is unfinished. */
    method FilterByDependencies(pending: seq<JobId>, now: Instant) returns (eligible: seq<JobId>)
      requires forall j :: j in pending ==> j in jobs
      modifies `jobs
      ensures jobs.Keys == old(jobs.Keys)
      ensures forall k :: k in jobs ==>
              jobs[k] == if k in pending && Orphaned(old(Store()), k) then FailedAt(old(jobs[k]), now) else old(jobs[k])
      ensures forall k :: k in eligible <==> k in pending && Unblocked(old(Store()), k)
    {
      ghost var w := Store();
      var parentStatus := map p | p in jobs :: jobs[p].status;
      eligible := [];
      for i := 0 to |pending|
        modifies `jobs
        invariant jobs.Keys == w.jobs.Keys
        invariant forall k :: k in jobs ==>
                  jobs[k] == if k in pending[..i] && Orphaned(w, k) then FailedAt(w.jobs[k], now) else w.jobs[k]
        invariant forall k :: k in eligible <==> k in pending[..i] && Unblocked(w, k)
      {
        var j := pending[i];
        assert pending[..i + 1] == pending[..i] + [j];
        var parent := jobs[j].dependsOn;
        if parent.None? {
          eligible := eligible + [j];
        } else if parent.value in parentStatus && parentStatus[parent.value] == Done {
          eligible := eligible + [j];
        } else if parent.value !in parentStatus || parentStatus[parent.value] == Failed {
          jobs := jobs[j := jobs[j].(status := Failed, completedAt := Some(now))];
        }
      }
    }

    /** Fail the gate jobs whose stored test case is gone; offer the rest. */
    method ResolveTestCases(eligible: seq<JobId>, now: Instant) returns (offered: seq<JobId>)
      requires forall j :: j in eligible ==> j in jobs
      modifies `jobs
      ensures jobs.Keys == old(jobs.Keys)
      ensures forall k :: k in jobs ==>
                            jobs[k] == if k in eligible && CaseGone(old(Store()), k) then FailedAt(old(jobs[k]), now)
                            else old(jobs[k])
      ensures forall k :: k in offered <==> k in eligible && !CaseGone(old(Store()), k)
    {
      ghost var w := Store();
      offered := [];
      for i := 0 to |eligible|
        modifies `jobs
        invariant jobs.Keys == w.jobs.Keys
        invariant forall k :: k in jobs ==>
                  jobs[k] == if k in eligible[..i] && CaseGone(w, k) then FailedAt(w.jobs[k], now) else w.jobs[k]
        invariant forall k :: k in offered <==> k in eligible[..i] && !CaseGone(w, k)
      {
        var j := eligible[i];
        assert eligible[..i + 1] == eligible[..i] + [j];
        var job := jobs[j];
        if job.tool != Gate {
          offered := offered + [j];
        } else if job.engagement in engagements && job.testCase.Some?
            && job.testCase.value in engagements[job.engagement].cases {
          offered := offered + [j];
        } else {
          jobs := jobs[j := job.(status := Failed, completedAt := Some(now))];
        }
      }
    }

    method PollPending(visible: set<EngagementId>, now: Instant) returns (offered: seq<JobId>)
      modifies this
      ensures Store() == Poll(old(Store()), visible, now)
      ensures forall j :: j in offered <==> PollOffers(old(Store()), visible, j)
    {
      ghost var w := Store();
      var pending := ListPending(visible);
      var eligible := FilterByDependencies(pending, now);
      ghost var u := Store();
      assert forall k :: k in eligible ==> CaseGone(u, k) == CaseGone(w, k);
      offered := ResolveTestCases(eligible, now);
      TwoPasses(w, visible, now, pending, eligible, u.jobs, jobs);
    }

    // ----- Managed issuance -----

    method ObserveTime(t: Instant) returns (r: Answer)
      modifies this
      ensures Did(ObserveClock(old(Store()), t), r)
    {
      if observed.Some? {
        :- Need(observed.value <= t, ClockRollback);
      }
      observed := Some(t);
      return Success(Plain);
    }

    /** The first registration of an approval, once its signature was checked. */
    method AddApproval(q: RegisterRequest) returns (r: Answer)
      requires Known(Store(), q.job) && q.envelope.id !in approvals
      requires CheckEnvelope(q.envelope, q.envelope.context, q.actor, q.received).Pass?
      modifies this
      ensures Did(Register(old(Store()), q), r)
    {
      hide CheckEnvelope, Projection;
      var job, id := jobs[q.job], q.envelope.id;
      :- Need(job.status == Pending, PendingJobRequired);
      :- Need(q.facts.enrolled, EnrollmentRequired);
      var context :- Projection(Store(), q.job, q.actor, q.authorization, q.caseHash, q.envelope.context,
                                engagements[job.engagement].revision, Pending, q.facts.inScope);
      :- CheckEnvelope(q.envelope, context, q.actor, q.reviewed);
      var row := Approval(q.job, job.engagement, q.authorization, q.actor, q.envelope, q.caseHash, 0, false);
      approvals := approvals[id := row];
      jobs := jobs[q.job := job.(approval := Some(id), contractRequired := true)];
      :- LockTime(q.locked);
      :- CheckEnvelope(q.envelope, context, q.actor, q.signedOff);
      return Success(Plain);
    }

    method RegisterApproval(q: RegisterRequest) returns (r: Answer)
      modifies this
      ensures Did(Register(old(Store()), q), r)
    {
      hide CheckEnvelope, Projection;
      var found := Known(Store(), q.job);
      :- Need(found, NotFound);
      var job, id := jobs[q.job], q.envelope.id;
      :- CheckEnvelope(q.envelope, q.envelope.context, q.actor, q.received);
      if id !in approvals {
        r := AddApproval(q);
        return;
      }
      :- Need(approvals[id].job == q.job && job.approval == Some(id)
              && approvals[id].envelope == q.envelope, ApprovalIdReused);
      :- Need(!approvals[id].revoked, ApprovalUnavailable);
      :- LockTime(q.locked);
      return Success(Plain);
    }

    method RevokeApproval(j: JobId, actor: UserId, locked: Instant) returns (r: Answer)
      modifies this
      ensures Did(Revoke(old(Store()), j, actor, locked), r)
    {
      var found := Known(Store(), j);
      :- Need(found, NotFound);
      var id := jobs[j].approval;
      :- Need(id.Some? && id.value in approvals && approvals[id.value].owner == actor, OwnerRequired);
      :- LockTime(locked);
      approvals := approvals[id.value := approvals[id.value].(revoked := true)];
      return Success(Plain);
    }

    /** Charge, start, issue the execution and the contract, then ask for permission once more. */
    method ClaimManaged(q: ClaimRequest) returns (r: Answer)
      modifies this
      ensures Did(ManagedClaim(old(Store()), q), r)
    {
      hide IssueContract, ClaimPermission, ChargeTargets, AllocateDuration, CheckCapacity, Started;
      ghost var w := Store();
      :- Need(Known(Store(), q.job), NotFound);
      var job := jobs[q.job];
      :- Need(job.status == Pending, PendingJobRequired);
      var a :- ClaimPermission(Store(), q.job, q.facts, Pending, q.permitted);
      PermissionShows(w, q.job, q.facts, Pending, q.permitted);
      :- Need(q.control.concurrency && q.control.binding.Some? && q.control.seconds.Some?
              && q.control.seconds.value <= a.envelope.context.maxDuration, ManagedBudgetsRequired);
      :- LockTime(q.locked);
      :- CheckCapacity(Store(), job.engagement, true);
      var snapshot := engagements[job.engagement].cases[job.testCase.value];
      var charged :- StartAndCharge(q.job, Some(snapshot), q.started, q.control.binding, q.control.seconds);
      var x := Execution(q.control.holder, q.system + LEASE, Active, q.control.concurrency, charged.0, charged.1);
      executions := executions[q.job := x];
      var contract :- IssueOneContract(q, job.approval.value);
      return Success(Issued(contract, x));
    }

    /** The last two checks may still refuse after the contract was written. */
    method IssueOneContract(q: ClaimRequest, id: ApprovalId) returns (r: Result<Contract, Reason>)
      requires id in approvals
      modifies `approvals, `contracts, `observed
      ensures var step := IssueContract(old(Store()), q, id);
              if step.Failure? then r == Failure(step.error)
              else Store() == step.value && r == Success(step.value.contracts[q.job])
    {
      hide CheckEnvelope;
      var a := approvals[id];
      var ordinal := a.issued + 1;
      :- Need(ordinal <= a.envelope.context.maxExecutions, ApprovalExhausted);
      :- Need(q.job !in contracts, AttemptAlreadyIssued);
      :- CheckEnvelope(a.envelope, a.envelope.context, a.owner, q.issued);
      :- Need(!ContractIdTaken(Store(), q.contract), AlreadyExists);
      approvals := approvals[id := a.(issued := ordinal)];
      contracts := contracts[q.job := Contract(q.contract, id, ordinal, q.attempt, 1, q.sha, false)];
      :- LockTime(q.relocked);
      :- CheckEnvelope(a.envelope, a.envelope.context, a.owner, q.final);
      return Success(contracts[q.job]);
    }

    /** The gate shared by check, renewal and launch; it only moves the clock. */
    method Current(q: LiveRequest) returns (r: Result<Approval, Reason>)
      modifies `observed
      ensures Authorize(old(Store()), q).Failure? ==> r == Failure(Authorize(old(Store()), q).error)
      ensures Authorize(old(Store()), q).Success? ==>
                && Store() == Authorize(old(Store()), q).value && Known(Store(), q.job) && q.job in executions
                && q.job in contracts
                && jobs[q.job].approval.Some? && jobs[q.job].approval.value in approvals
                && r == Success(approvals[jobs[q.job].approval.value])
    {
      var found := Owned(Store(), q.job, q.holder);
      :- Need(found, NotFound);
      :- Need(q.job in contracts && contracts[q.job].id == q.contract && contracts[q.job].attempt == q.attempt
              && contracts[q.job].fence == q.fence, ContractFenceRequired);
      var a :- ClaimPermission(Store(), q.job, q.facts, Running, q.clock.permitted);
      :- LockTime(q.clock.locked);
      :- Need(executions[q.job].phase == Active && executions[q.job].expiresAt > q.clock.system, LeaseNotLive);
      :- CheckEnvelope(a.envelope, a.envelope.context, a.owner, q.clock.rechecked);
      return Success(a);
    }

    method CheckCurrent(q: LiveRequest) returns (r: Answer)
      modifies this
      ensures Did(CheckLive(old(Store()), q), r)
    {
      hide Authorize;
      var a :- Current(q);
      return Success(Permitted(a.envelope.context.revision));
    }

    method RenewLease(q: LiveRequest) returns (r: Answer)
      modifies this
      ensures Did(Renew(old(Store()), q), r)
    {
      hide Authorize, WholeSeconds;
      ghost var w := Store();
      AuthorizeFacts(w, q);
      var a :- Current(q);
      var job := jobs[q.job];
      var instant := Max(q.clock.instant, q.clock.instantSystem);
      :- Need(job.startedAt.Some? && executions[q.job].seconds > 0, AllocationRequired);
      var ceiling := LeastCeiling(a.envelope.context, job.startedAt.value, executions[q.job].seconds);
      var lease := Min(LEASE / SECOND, WholeSeconds(ceiling - instant));
      :- Need(lease > 0 && executions[q.job].expiresAt > instant, LeaseNotLive);
      executions := executions[q.job := executions[q.job].(expiresAt := instant + SECOND * lease)];
      :- LockTime(q.clock.relocked);
      :- Need(executions[q.job].expiresAt > Max(q.clock.last, q.clock.lastSystem), LeaseNotLive);
      return Success(Renewed(lease, executions[q.job].expiresAt));
    }

    method ConsumeContract(q: LiveRequest, sha: Digest) returns (r: Answer)
      modifies this
      ensures Did(Consume(old(Store()), q, sha), r)
    {
      hide Authorize, CheckEnvelope;
      ghost var w := Store();
      AuthorizeFacts(w, q);
      var a :- Current(q);
      var c := contracts[q.job];
      :- Need(sha == c.sha, ContractBindingRequired);
      :- Need(!c.consumed, AlreadyConsumed);
      contracts := contracts[q.job := c.(consumed := true)];
      :- LockTime(q.clock.relocked);
      :- CheckEnvelope(a.envelope, a.envelope.context, a.owner, q.clock.instant);
      :- Need(executions[q.job].expiresAt > Max(q.clock.last, q.clock.lastSystem), LeaseNotLive);
      return Success(Launched(Binding(c.id, c.attempt, c.fence, c.sha)));
    }

    // ----- Managed results and stops -----

    method SubmitResult(q: SubmitRequest) returns (r: Answer)
      modifies this
      ensures Did(Submit(old(Store()), q), r)
    {
      hide OwnedConsumed, RetainedResult, StoreResult;
      ghost var w := Store();
      var j := q.owned.job;
      :- OwnedConsumed(Store(), q.owned);
      OwnedFacts(w, q.owned);
      var job, a := jobs[j], approvals[jobs[j].approval.value];
      :- Need(0 < q.size <= Min(MAX_RESULT_BYTES, a.envelope.context.maxArtifact), ResultSize);
      :- Need(q.wellFormed, InvalidResult);
      :- Need(job.snapshot.Some? && q.upload.caseHash == Some(job.snapshot.value.hash)
              && job.snapshot.value.hash == a.caseHash
              && q.upload.ref == Some(job.snapshot.value.ref), ResultCaseMismatch);
      var retained :- RetainedResult(Store(), q.owned);
      if retained.Some? {
        :- Need(retained.value.artifact == q.artifact && retained.value.caseHash == a.caseHash, DifferentResult);
        return Success(Retained(ReceiptOf(retained.value)));
      }
      :- Need(j !in receipts, ForeignReceipt);
      var stored :- StoreGateResult(j, q.upload);
      StoreKeepsResults(w, j, q.upload);
      var row := ManagedResult(j, q.owned.binding, q.artifact, a.caseHash, q.preflightFailed, None, None);
      results := results[q.owned.binding.contract := row];
      :- LockTime(q.locked);
      return Success(Retained(ReceiptOf(row)));
    }

    /** Write the outcome into a result row and end its execution. */
    method CloseResult(j: JobId, id: ContractId, outcome: Outcome, at: Instant)
      requires j in jobs && j in executions && id in results
      modifies `results, `jobs, `executions
      ensures var w := old(Store()); var closed := w.results[id].(outcome := Some(outcome), finishedAt := Some(at));
              Store() == Terminated(w, j, outcome, at).(results := w.results[id := closed])
    {
      results := results[id := results[id].(outcome := Some(outcome))];
      results := results[id := results[id].(finishedAt := Some(at))];
      assert results == old(results)[id := old(results)[id].(outcome := Some(outcome), finishedAt := Some(at))];
      EndExecution(j, outcome, at);
    }

    method FinishManaged(q: FinishRequest) returns (r: Answer)
      modifies this
      ensures Did(Finish(old(Store()), q), r)
    {
      hide OwnedConsumed, RetainedResult, MayComplete, CheckCompletable;
      ghost var w := Store();
      var j, id := q.owned.job, q.owned.binding.contract;
      :- OwnedConsumed(Store(), q.owned);
      OwnedFacts(w, q.owned);
      RetainedFacts(w, q.owned);
      var retained :- RetainedResult(Store(), q.owned);
      :- Need(retained.Some? && ReceiptOf(retained.value) == q.receipt, ResultReceiptRequired);
      if results[id].outcome.Some? {
        :- Need(results[id].outcome.value == q.outcome, DifferentCompletion);
        return CompletionAck(results[id], executions[j]);
      }
      :- Need(!executions[j].phase.Ended?, ForeignCompletion);
      :- Need(executions[j].reserved, ReservationRequired);
      :- MayComplete(Store(), q, results[id]);
      CloseResult(j, id, q.outcome, q.finished);
      :- LockTime(q.locked);
      ghost var timed := Store();
      if q.outcome == Completed {
        CompletableUnmoved(w, timed, j, Max(q.final, q.finalSystem), q.finalRechecked);
        :- CheckCompletable(Store(), j, Max(q.final, q.finalSystem), q.finalRechecked);
      }
      return CompletionAck(results[id], executions[j]);
    }

    method ReportStopped(q: StopRequest) returns (r: Answer)
      modifies this
      ensures Did(ReportStop(old(Store()), q), r)
    {
      hide OwnedConsumed, RetainedResult, RetainedStop;
      ghost var w := Store();
      var j, id := q.owned.job, q.owned.binding.contract;
      :- OwnedConsumed(Store(), q.owned);
      OwnedFacts(w, q.owned);
      var stop :- RetainedStop(Store(), q.owned);
      if stop.Some? {
        :- Need(stop.value.cause == q.cause, DifferentStop);
        return StopAck(stop.value, executions[j]);
      }
      var result :- RetainedResult(Store(), q.owned);
      :- Need(result.None?, ResultStarted);
      :- Need(!executions[j].phase.Ended? && executions[j].reserved, ReservationRequired);
      var row := ManagedStop(j, q.owned.binding, CauseOutcome(q.cause), q.cause, q.finished);
      stops := stops[id := row];
      EndExecution(j, row.outcome, q.finished);
      :- LockTime(q.locked);
      return StopAck(row, executions[j]);
    }

    // ----- Transactions -----

    method EditRoute(e: EngagementId, edit: Edit) returns (r: Answer)
      modifies this
      ensures Did(EditEngagement(old(Store()), e, edit), r)
    {
      hide EditEngagement;
      match edit
      case AddScope(id, row) => r := AddScopeItem(e, id, row);
      case RemoveScope(id, excluded) => r := DeleteScopeItem(e, id, excluded);
      case ImportScope(rows) => r := ImportScopeItems(e, rows);
      case CreateAuthorization(id, grant, note) => r := CreateAuthorizationRow(e, id, grant, note);
      case UpdateAuthorization(id, fields) => r := UpdateAuthorizationRow(e, id, fields);
      case CreateCase(id, spec) => r := CreateTestCase(e, id, spec);
      case UpdateCase(id, spec) => r := UpdateTestCase(e, id, spec);
      case RemoveCase(id) => r := DeleteTestCase(e, id);
      case UpdateEngagement(fields) => r := UpdateEngagementRow(e, fields);
      case ApplyRateCeiling(rate, pending) => r := ApproveRateCeiling(e, rate, pending);
    }

    method EngagementRoute(ev: Event) returns (r: Answer)
      requires EngagementEvent(ev)
      modifies this
      ensures Did(Transact(old(Store()), ev), r)
    {
      hide CreateEngagement, EditEngagement, ConfigureConcurrency, ConfigureTargets, ConfigureDuration;
      hide DeleteEngagement, EngageStopWork, ReleaseStopWork;
      hide CreateJob, CreatePipeline, Poll, PatchJob, DeleteJob, LegacyClaim, LegacyRefresh, LegacyFinish, UploadResult;
      hide Register, Revoke, ManagedClaim, CheckLive, Renew, Consume, Submit, Finish, ReportStop;
      match ev
      case EvCreateEngagement(e, owner, kind, status) => r := CreateEngagementRow(e, owner, kind, status);
      case EvEdit(e, edit) => r := EditRoute(e, edit);
      case EvConfigureConcurrency(e, limit) => r := ConfigureConcurrencyLimit(e, limit);
      case EvConfigureTargets(e, limit) => r := ConfigureTargetLimit(e, limit);
      case EvConfigureDuration(e, limit) => r := ConfigureDurationLimit(e, limit);
      case EvDeleteEngagement(e) => r := RemoveEngagement(e);
      case EvEngageStopWork(e) => r := PullBrake(e);
      case EvReleaseStopWork(e) => r := ReleaseBrake(e);
    }

    method JobRoute(ev: Event) returns (r: Answer)
      requires JobEvent(ev) || AttemptEvent(ev)
      modifies this
      ensures Did(Transact(old(Store()), ev), r)
    {
      hide CreateJob, CreatePipeline, Poll, PatchJob, DeleteJob, LegacyClaim, LegacyRefresh, LegacyFinish, UploadResult;
      hide CreateEngagement, EditEngagement, ConfigureConcurrency, ConfigureTargets, ConfigureDuration;
      hide DeleteEngagement, EngageStopWork, ReleaseStopWork;
      hide Register, Revoke, ManagedClaim, CheckLive, Renew, Consume, Submit, Finish, ReportStop;
      match ev
      case EvCreateJob(e, j, spec, parent) => r := CreateJobRow(e, j, spec, parent);
      case EvCreatePipeline(e, stages) => r := CreatePipelineRows(e, stages);
      case EvPoll(visible, now) =>
        var _ := PollPending(visible, now);
        r := Success(Plain);
      case EvPatchJob(j, status, now) => r := UpdateJob(j, status, now);
      case EvDeleteJob(j) => r := RemoveJob(j);
      case EvLegacyClaim(j, control, now, system) => r := ClaimJob(j, control, now, system);
      case EvLegacyRefresh(j, holder, system, renewal) => r := RefreshExecution(j, holder, system, renewal);
      case EvLegacyFinish(j, holder, outcome, system, now) => r := FinishExecution(j, holder, outcome, system, now);
      case EvUpload(j, upload) => r := UploadGateResult(j, upload);
    }

    method ManagedRoute(ev: Event) returns (r: Answer)
      requires !EngagementEvent(ev) && !JobEvent(ev) && !AttemptEvent(ev)
      modifies this
      ensures Did(Transact(old(Store()), ev), r)
    {
      hide ObserveClock, Register, Revoke, ManagedClaim, CheckLive, Renew, Consume, Submit, Finish, ReportStop;
      match ev
      case EvObserve(now) => r := ObserveTime(now);
      case EvRegister(q) => r := RegisterApproval(q);
      case EvRevoke(j, actor, now) => r := RevokeApproval(j, actor, now);
      case EvClaim(q) => r := ClaimManaged(q);
      case EvCheckLive(q) => r := CheckCurrent(q);
      case EvRenew(q) => r := RenewLease(q);
      case EvConsume(q, sha) => r := ConsumeContract(q, sha);
      case EvSubmit(q) => r := SubmitResult(q);
      case EvFinish(q) => r := FinishManaged(q);
      case EvReportStop(q) => r := ReportStopped(q);
    }

    method Rollback(saved: World)
      modifies this
      ensures Store() == saved
    {
      engagements, jobs, executions, receipts := saved.engagements, saved.jobs, saved.executions, saved.receipts;
      approvals, contracts, results, stops := saved.approvals, saved.contracts, saved.results, saved.stops;
      observed, history := saved.observed, saved.history;
    }

    /** One transaction: commit everything the route wrote, or nothing. */
    method Transaction(ev: Event) returns (r: Answer)
      modifies this
      ensures Store() == Next(old(Store()), ev) && r == Answered(Transact(old(Store()), ev))
    {
      hide Transact, EngagementEvent, JobEvent, AttemptEvent;
      var saved := Store();
      if EngagementEvent(ev) {
        r := EngagementRoute(ev);
      } else if JobEvent(ev) || AttemptEvent(ev) {
        r := JobRoute(ev);
      } else {
        r := ManagedRoute(ev);
      }
      if r.Failure? { Rollback(saved); }
    }

    /** A managed operation: observe the clock, run the transaction, and observe again if it refused. */
    method Operation(begun: Instant, ev: Event, ended: Instant) returns (r: Answer)
      modifies this
      ensures Store() == Operated(old(Store()), begun, ev, ended)
      ensures r.Failure? <==> Refused(old(Store()), begun, ev)
      ensures r.Failure? ==> SameButClock(old(Store()), Store())
    {
      hide Transact;
      ghost var w := Store();
      if Refused(w, begun, ev) { OperationAtomic(w, begun, ev, ended); }
      var _ :- Transaction(EvObserve(begun));
      r := Transaction(ev);
      if r.Failure? {
        var _ :- Transaction(EvObserve(ended));
      }
    }
  }
}
