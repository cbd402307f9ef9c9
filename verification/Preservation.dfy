/** Every event of the job and engagement routes keeps the invariant. */
module Preservation {
  import opened Wrappers
  import opened Records
  import opened Budgets
  import opened AuthorityEdits
  import opened JobSteps
  import opened Protocol
  import opened Frames

  // ----- One job's job and execution rows -----

  ghost predicate SameRecords(w: World, v: World) {
    && v.approvals == w.approvals && v.contracts == w.contracts && v.results == w.results && v.stops == w.stops
    && v.receipts == w.receipts && v.history == w.history && v.engagements == w.engagements
  }

  lemma SameReservations(w: World, v: World)
    requires AccountsOk(w) && v.engagements == w.engagements && v.history == w.history
    requires forall e :: ReservedJobs(v, e) <= ReservedJobs(w, e)
    ensures AccountsOk(v)
  {
    forall e | e in v.engagements ensures EngagementOk(v, e) {
      assert EngagementOk(w, e);
      SubsetSize(ReservedJobs(v, e), ReservedJobs(w, e));
    }
  }

  ghost predicate JobsOk(w: World) {
    forall j {:trigger JobOk(w, j)} :: j in w.jobs ==> JobOk(w, j)
  }

  ghost predicate ExecutionsOk(w: World) {
    forall j {:trigger ExecutionOk(w, j)} :: j in w.executions ==> ExecutionOk(w, j)
  }

  /** What is left to show of a step that keeps the managed records. */
  lemma StepKeeps(w: World, v: World)
    requires Inv(w) && ManagedRecordsKept(w, v) && JobsOk(v) && ExecutionsOk(v) && AccountsOk(v) && HistoryOk(v)
    requires forall j :: j in v.receipts ==> j in v.jobs
    ensures Inv(v)
  {
    ManagedRecordsStayOk(w, v);
    hide Inv, ManagedRecordsKept, JobsOk, ExecutionsOk, AccountsOk, HistoryOk; // each is shown by name
  }

  /** A step on the job and execution rows of j alone; an ended execution stays ended the same way. */
  lemma RowStepKeeps(w: World, v: World, j: JobId)
    requires Inv(w) && SameRecords(w, v)
    requires j in w.jobs && j in v.jobs && v.jobs == w.jobs[j := v.jobs[j]]
    requires v.executions == w.executions || (j in v.executions && v.executions == w.executions[j := v.executions[j]])
    requires JobOk(v, j) && (j in v.executions ==> ExecutionOk(v, j)) && StaysEnded(w, v, j)
    requires v.jobs[j].engagement == w.jobs[j].engagement
    requires j in v.executions && v.executions[j].reserved ==> j in w.executions && w.executions[j].reserved
    ensures Inv(v)
  {
    assert ManagedRecordsKept(w, v) by {
      forall k ensures StaysEnded(w, v, k) {}
    }
    assert JobsOk(v) by {
      forall k | k in v.jobs ensures JobOk(v, k) { if k != j { assert JobOk(w, k); } }
    }
    assert ExecutionsOk(v) by {
      forall k | k in v.executions ensures ExecutionOk(v, k) { if k != j { assert ExecutionOk(w, k); } }
    }
    SameReservations(w, v);
    StepKeeps(w, v);
  }

  /** The execution row y replaces x without ending it, reserving more, or reactivating it. */
  predicate Adjusts(x: Execution, y: Execution) {
    && !x.phase.Ended? && !y.phase.Ended? && (y.phase == Active ==> x.phase == Active)
    && y.reserved == x.reserved && y.seconds == x.seconds
  }

  lemma AdjustKeeps(w: World, j: JobId, y: Execution)
    requires Inv(w) && j in w.executions && Adjusts(w.executions[j], y)
    ensures Inv(WithExecution(w, j, y))
  {
    assert ExecutionOk(w, j);
    assert JobOk(w, j);
    RowStepKeeps(w, WithExecution(w, j, y), j);
  }

  /** A job that holds no execution changes only its status and completion time. */
  lemma StatusKeeps(w: World, j: JobId, status: Status, completedAt: Option<Instant>)
    requires Inv(w) && Known(w, j) && j !in w.executions
    requires status == Running ==> LimitsOf(w, j).concurrency.None?
    ensures Inv(WithJob(w, j, w.jobs[j].(status := status, completedAt := completedAt)))
  {
    assert JobOk(w, j);
    RowStepKeeps(w, WithJob(w, j, w.jobs[j].(status := status, completedAt := completedAt)), j);
  }

  lemma TerminateKeeps(w: World, j: JobId, outcome: Outcome, at: Instant)
    requires Inv(w) && j in w.jobs && j in w.executions && j !in w.contracts && !w.executions[j].phase.Ended?
    ensures Inv(Terminated(w, j, outcome, at))
  {
    assert JobOk(w, j) && ExecutionOk(w, j);
    RowStepKeeps(w, Terminated(w, j, outcome, at), j);
  }

  lemma PatchKeeps(w: World, j: JobId, status: Status, now: Instant)
    requires Inv(w) && PatchJob(w, j, status, now).Success?
    ensures Inv(PatchJob(w, j, status, now).value.world)
  {
    assert JobOk(w, j);
    if j in w.executions {
      assert ExecutionOk(w, j);
      AdjustKeeps(w, j, Braked(w.executions[j]));
    } else if status != w.jobs[j].status || status == Running {
      StatusKeeps(w, j, status, PatchJob(w, j, status, now).value.world.jobs[j].completedAt);
    }
  }

  lemma RefreshKeeps(w: World, j: JobId, holder: Holder, system: Instant, renewal: Instant)
    requires Inv(w) && LegacyRefresh(w, j, holder, system, renewal).Success?
    ensures Inv(LegacyRefresh(w, j, holder, system, renewal).value.world)
  {
    var v := LegacyRefresh(w, j, holder, system, renewal).value.world;
    if w.executions[j].phase.Ended? {
      assert v == w;
    } else {
      AdjustKeeps(w, j, v.executions[j]);
    }
  }

  lemma LegacyFinishKeeps(w: World, j: JobId, holder: Holder, outcome: FinishOutcome, system: Instant, now: Instant)
    requires Inv(w) && LegacyFinish(w, j, holder, outcome, system, now).Success?
    ensures Inv(LegacyFinish(w, j, holder, outcome, system, now).value.world)
  {
    LegacyFinishShape(w, j, holder, outcome, system, now);
    var x, v := w.executions[j], LegacyFinish(w, j, holder, outcome, system, now).value.world;
    assert ExecutionOk(w, j) && JobOk(w, j);
    if !x.phase.Ended? {
      if v.executions[j].phase.Ended? {
        TerminateKeeps(w, j, outcome.outcome, now);
      } else {
        AdjustKeeps(w, j, v.executions[j]);
      }
    }
  }

  // ----- Jobs created, deleted, polled; evidence stored -----

  lemma DeleteJobKeeps(w: World, j: JobId)
    requires Inv(w) && !(j in w.executions && w.executions[j].reserved)
    ensures Inv(w.(jobs := w.jobs - {j}, executions := w.executions - {j}, receipts := w.receipts - {j}))
  {
    var v := w.(jobs := w.jobs - {j}, executions := w.executions - {j}, receipts := w.receipts - {j});
    assert ManagedRecordsKept(w, v) by {
      forall k ensures StaysEnded(w, v, k) {}
    }
    assert JobsOk(v) by {
      forall k | k in v.jobs ensures JobOk(v, k) { assert JobOk(w, k); }
    }
    assert ExecutionsOk(v) by {
      forall k | k in v.executions ensures ExecutionOk(v, k) { assert ExecutionOk(w, k); }
    }
    SameReservations(w, v);
    StepKeeps(w, v);
  }

  lemma AddKeeps(w: World, e: EngagementId, j: JobId, spec: JobSpec, parent: Option<JobId>)
    requires Inv(w) && e in w.engagements && j !in w.history.jobs && j !in w.jobs
    ensures Inv(Added(w, e, j, spec, parent))
  {
    var v := Added(w, e, j, spec, parent);
    RowsNameRealJobs(w);
    assert ManagedRecordsKept(w, v) by {
      forall k ensures StaysEnded(w, v, k) {}
    }
    assert JobsOk(v) by {
      forall k | k in v.jobs ensures JobOk(v, k) { if k != j { assert JobOk(w, k); } }
    }
    assert ExecutionsOk(v) by {
      forall k | k in v.executions ensures ExecutionOk(v, k) { assert ExecutionOk(w, k); }
    }
    AddAccounts(w, v, j);
    StepKeeps(w, v);
  }

  lemma AddAccounts(w: World, v: World, j: JobId)
    requires AccountsOk(w) && j !in w.executions && v.executions == w.executions && j in v.jobs
             && v.jobs == w.jobs[j := v.jobs[j]]
    requires v.engagements == w.engagements && v.history.charges == w.history.charges
             && v.history.engagements == w.history.engagements
    ensures AccountsOk(v)
  {
    forall e | e in v.engagements ensures EngagementOk(v, e) {
      assert EngagementOk(w, e);
      assert ReservedJobs(v, e) == ReservedJobs(w, e);
    }
  }

  predicate NotAStage(stages: seq<(JobId, JobSpec)>, j: JobId) {
    forall i :: 0 <= i < |stages| ==> stages[i].0 != j
  }

  lemma {:induction false} ChainKeeps(w: World, e: EngagementId, stages: seq<(JobId, JobSpec)>)
    requires Inv(w) && e in w.engagements
    requires forall i :: 0 <= i < |stages| ==> stages[i].0 !in w.history.jobs && stages[i].0 !in w.jobs
    requires forall i, k :: 0 <= i < k < |stages| ==> stages[i].0 != stages[k].0
    ensures Inv(Chained(w, e, stages)) && Chained(w, e, stages).engagements == w.engagements
    ensures forall j :: NotAStage(stages, j) && j !in w.jobs && j !in w.history.jobs
                        ==> j !in Chained(w, e, stages).jobs && j !in Chained(w, e, stages).history.jobs
  {
    hide Inv;
    if stages != [] {
      var front := stages[..|stages| - 1];
      ChainKeeps(w, e, front);
      assert NotAStage(front, stages[|stages| - 1].0);
      var (j, spec) := stages[|stages| - 1];
      AddKeeps(Chained(w, e, front), e, j, spec, if front == [] then None else Some(front[|front| - 1].0));
    }
  }

  lemma PipelineKeeps(w: World, e: EngagementId, stages: seq<(JobId, JobSpec)>)
    requires Inv(w) && CreatePipeline(w, e, stages).Success?
    ensures Inv(CreatePipeline(w, e, stages).value.world)
  {
    hide Inv, Chained;
    ChainKeeps(w, e, stages);
  }

  lemma PollKeeps(w: World, visible: set<EngagementId>, now: Instant)
    requires Inv(w)
    ensures Inv(Poll(w, visible, now))
  {
    var v := Poll(w, visible, now);
    assert ManagedRecordsKept(w, v) by {
      forall k ensures StaysEnded(w, v, k) {}
    }
    assert ExecutionsOk(v) by {
      forall k | k in v.executions ensures ExecutionOk(v, k) { assert ExecutionOk(w, k); }
    }
    assert JobsOk(v) by {
      forall k | k in v.jobs ensures JobOk(v, k) { assert JobOk(w, k); }
    }
    SameReservations(w, v);
    StepKeeps(w, v);
  }

  lemma ClockKeeps(w: World, t: Option<Instant>)
    requires Inv(w)
    ensures Inv(w.(observed := t))
  {
    var v := w.(observed := t);
    assert ManagedRecordsKept(w, v) by {
      forall k ensures StaysEnded(w, v, k) {}
    }
    assert JobsOk(v) by {
      forall k | k in v.jobs ensures JobOk(v, k) { assert JobOk(w, k); }
    }
    assert ExecutionsOk(v) by {
      forall k | k in v.executions ensures ExecutionOk(v, k) { assert ExecutionOk(w, k); }
    }
    SameReservations(w, v);
    StepKeeps(w, v);
  }

  lemma StoreAccounts(w: World, v: World)
    requires AccountsOk(w) && v.executions == w.executions && v.jobs == w.jobs
    requires v.engagements == w.engagements && v.history.charges == w.history.charges
             && v.history.engagements == w.history.engagements
    ensures AccountsOk(v)
  {
    forall e | e in v.engagements ensures EngagementOk(v, e) {
      assert EngagementOk(w, e);
      assert ReservedJobs(v, e) == ReservedJobs(w, e);
    }
  }

  lemma StoreRowKeeps(w: World, j: JobId, digest: Digest)
    requires Inv(w) && Known(w, j) && j !in w.receipts
    ensures var history := w.history.(evidence := w.history.evidence + multiset{j});
            Inv(w.(receipts := w.receipts[j := digest], history := history))
  {
    var history := w.history.(evidence := w.history.evidence + multiset{j});
    var v := w.(receipts := w.receipts[j := digest], history := history);
    assert JobOk(w, j);
    assert ManagedRecordsKept(w, v) by {
      forall k ensures StaysEnded(w, v, k) {}
    }
    assert JobsOk(v) by {
      forall k | k in v.jobs ensures JobOk(v, k) { assert JobOk(w, k); }
    }
    assert ExecutionsOk(v) by {
      forall k | k in v.executions ensures ExecutionOk(v, k) { assert ExecutionOk(w, k); }
    }
    StoreAccounts(w, v);
    StepKeeps(w, v);
  }

  lemma StoreKeeps(w: World, j: JobId, u: Upload)
    requires Inv(w) && Known(w, j) && StoreResult(w, j, u).Success?
    ensures Inv(StoreResult(w, j, u).value.world)
  {
    hide Inv, AuthoritativeSpec;
    if j !in w.receipts { StoreRowKeeps(w, j, u.payload.full); }
  }

  // ----- Engagement rows -----

  /** What replacing an engagement row must respect while its jobs may be running. */
  predicate RowRespects(w: World, e: EngagementId, h: Engagement)
    requires e in w.engagements
  {
    var g, limits := w.engagements[e], h.authority.limits;
    && h.targetsSpent == g.targetsSpent && h.durationAllocated == g.durationAllocated && MovesOn(g, h)
    && (limits.concurrency == g.authority.limits.concurrency || Idle(w, e))
    && (if limits.targets.Some? then h.targetsSpent <= limits.targets.value else h.targetsSpent == 0)
    && (if limits.duration.Some? then h.durationAllocated <= limits.duration.value else h.durationAllocated == 0)
    && (h.authority.stopWork ==> NothingActive(w, e))
  }

  predicate NothingActive(w: World, e: EngagementId) {
    forall j :: j in w.executions && j in w.jobs && w.jobs[j].engagement == e ==> w.executions[j].phase != Active
  }

  lemma EngagementRowKeeps(w: World, e: EngagementId, h: Engagement)
    requires Inv(w) && e in w.engagements && RowRespects(w, e, h)
    ensures Inv(WithEngagement(w, e, h))
  {
    var v := WithEngagement(w, e, h);
    assert ManagedRecordsKept(w, v) by {
      forall k ensures StaysEnded(w, v, k) {}
    }
    assert JobsOk(v) by {
      forall k | k in v.jobs ensures JobOk(v, k) {
        assert JobOk(w, k);
        assert k in RunningJobs(w, e) <==> w.jobs[k].engagement == e && w.jobs[k].status == Running;
      }
    }
    assert ExecutionsOk(v) by {
      forall k | k in v.executions ensures ExecutionOk(v, k) {
        assert ExecutionOk(w, k);
        assert k in ReservedJobs(w, e) <==> w.jobs[k].engagement == e && w.executions[k].reserved;
      }
    }
    RowAccounts(w, e, h);
    StepKeeps(w, v);
  }

  lemma RowAccounts(w: World, e: EngagementId, h: Engagement)
    requires AccountsOk(w) && e in w.engagements && RowRespects(w, e, h)
    ensures AccountsOk(WithEngagement(w, e, h))
  {
    var v := WithEngagement(w, e, h);
    forall f | f in v.engagements ensures EngagementOk(v, f) {
      assert EngagementOk(w, f);
      assert ReservedJobs(v, f) == ReservedJobs(w, f);
    }
  }

  /** A pulled brake leaves no active execution behind it. */
  lemma BrakeHolds(w: World, e: EngagementId)
    requires Inv(w) && e in w.engagements && w.engagements[e].authority.stopWork
    ensures NothingActive(w, e)
  {
    forall j | j in w.executions && j in w.jobs && w.jobs[j].engagement == e ensures w.executions[j].phase != Active {
      assert ExecutionOk(w, j);
    }
  }

  lemma EditKeeps(w: World, e: EngagementId, edit: Edit)
    requires Inv(w) && EditEngagement(w, e, edit).Success?
    ensures Inv(EditEngagement(w, e, edit).value.world)
  {
    var g, h := w.engagements[e], Edited(w.engagements[e], edit).value;
    EditAdvances(g, edit);
    if g.authority.stopWork { BrakeHolds(w, e); }
    assert EngagementOk(w, e);
    EngagementRowKeeps(w, e, h);
  }

  /** New limits respect the row when the engagement is idle and its accounts fit them. */
  lemma LimitsKeep(w: World, e: EngagementId, limits: Limits)
    requires Inv(w) && e in w.engagements && Idle(w, e)
    requires var g := w.engagements[e];
             && (if limits.targets.Some? then g.targetsSpent <= limits.targets.value else g.targetsSpent == 0)
             && (if limits.duration.Some? then g.durationAllocated <= limits.duration.value
                 else g.durationAllocated == 0)
    ensures Inv(WithEngagement(w, e, WithLimits(w.engagements[e], limits)))
  {
    if w.engagements[e].authority.stopWork { BrakeHolds(w, e); }
    EngagementRowKeeps(w, e, WithLimits(w.engagements[e], limits));
  }

  lemma ConcurrencyKeeps(w: World, e: EngagementId, limit: Option<Limit>)
    requires Inv(w) && ConfigureConcurrency(w, e, limit).Success?
    ensures Inv(ConfigureConcurrency(w, e, limit).value.world)
  {
    assert EngagementOk(w, e);
    LimitsKeep(w, e, w.engagements[e].authority.limits.(concurrency := limit));
    hide Inv, Idle;
  }

  lemma TargetsKeep(w: World, e: EngagementId, limit: Option<Limit>)
    requires Inv(w) && ConfigureTargets(w, e, limit).Success?
    ensures Inv(ConfigureTargets(w, e, limit).value.world)
  {
    assert EngagementOk(w, e);
    LimitsKeep(w, e, w.engagements[e].authority.limits.(targets := limit));
    hide Inv, Idle;
  }

  lemma DurationKeeps(w: World, e: EngagementId, limit: Option<Limit>)
    requires Inv(w) && ConfigureDuration(w, e, limit).Success?
    ensures Inv(ConfigureDuration(w, e, limit).value.world)
  {
    assert EngagementOk(w, e);
    LimitsKeep(w, e, w.engagements[e].authority.limits.(duration := limit));
    hide Inv, Idle;
  }

  lemma CreateEngagementKeeps(w: World, e: EngagementId, owner: UserId, kind: string, status: string)
    requires Inv(w) && CreateEngagement(w, e, owner, kind, status).Success?
    ensures Inv(CreateEngagement(w, e, owner, kind, status).value.world)
  {
    var v := CreateEngagement(w, e, owner, kind, status).value.world;
    assert ManagedRecordsKept(w, v) by {
      forall k ensures StaysEnded(w, v, k) {}
    }
    assert JobsOk(v) by {
      forall k | k in v.jobs ensures JobOk(v, k) { assert JobOk(w, k); }
    }
    assert ExecutionsOk(v) by {
      forall k | k in v.executions ensures ExecutionOk(v, k) { assert ExecutionOk(w, k); }
    }
    NewEngagementAccounts(w, v, e);
    StepKeeps(w, v);
  }

  lemma {:induction false} NeverCharged(charges: seq<Charge>, e: EngagementId)
    requires forall i :: 0 <= i < |charges| ==> charges[i].engagement != e
    ensures SumTargets(charges, e) == 0 && SumSeconds(charges, e) == 0
  {
    if charges != [] {
      NeverCharged(charges[..|charges| - 1], e);
    }
  }

  lemma NewEngagementAccounts(w: World, v: World, e: EngagementId)
    requires RowsOk(w) && AccountsOk(w) && HistoryOk(w) && e !in w.engagements && e !in w.history.engagements
    requires v.executions == w.executions && v.jobs == w.jobs && v.history.charges == w.history.charges
    requires v.history.engagements == w.history.engagements + {e}
    requires e in v.engagements && v.engagements == w.engagements[e := v.engagements[e]]
    requires v.engagements[e].targetsSpent == 0 && v.engagements[e].durationAllocated == 0
    requires v.engagements[e].authority.limits == Limits(None, None, None)
    ensures AccountsOk(v)
  {
    forall f | f in v.engagements ensures EngagementOk(v, f) {
      assert ReservedJobs(v, f) == ReservedJobs(w, f);
      if f == e {
        NeverCharged(w.history.charges, e);
        forall j | j in w.jobs ensures w.jobs[j].engagement != e { assert JobOk(w, j); }
        assert ReservedJobs(v, e) == {};
      } else {
        assert EngagementOk(w, f);
      }
    }
  }

  lemma DeleteEngagementKeeps(w: World, e: EngagementId)
    requires Inv(w) && DeleteEngagement(w, e).Success?
    ensures Inv(DeleteEngagement(w, e).value.world)
  {
    var v := DeleteEngagement(w, e).value.world;
    assert ManagedRecordsKept(w, v) by {
      forall k ensures StaysEnded(w, v, k) {}
    }
    assert JobsOk(v) by {
      forall k | k in v.jobs ensures JobOk(v, k) { assert JobOk(w, k); }
    }
    assert ExecutionsOk(v) by {
      forall k | k in v.executions ensures ExecutionOk(v, k) { assert ExecutionOk(w, k); }
    }
    forall f | f in v.engagements ensures EngagementOk(v, f) {
      assert EngagementOk(w, f);
      assert ReservedJobs(v, f) == ReservedJobs(w, f);
    }
    StepKeeps(w, v);
  }

  /** Asking every active execution of an engagement to cancel, before its row changes. */
  lemma BrakeExecutionsKeeps(w: World, e: EngagementId, executions: map<JobId, Execution>)
    requires Inv(w) && executions.Keys == w.executions.Keys
    requires forall j :: j in executions ==>
                           executions[j] == if j in w.jobs && w.jobs[j].engagement == e then Braked(w.executions[j])
                           else w.executions[j]
    ensures Inv(w.(executions := executions)) && NothingActive(w.(executions := executions), e)
  {
    var v := w.(executions := executions);
    assert ManagedRecordsKept(w, v) by {
      forall k ensures StaysEnded(w, v, k) {}
    }
    assert JobsOk(v) by {
      forall k | k in v.jobs ensures JobOk(v, k) { assert JobOk(w, k); }
    }
    assert ExecutionsOk(v) by {
      forall k | k in v.executions ensures ExecutionOk(v, k) { assert ExecutionOk(w, k); }
    }
    forall f ensures ReservedJobs(v, f) <= ReservedJobs(w, f) {
      forall k | k in ReservedJobs(v, f) ensures k in ReservedJobs(w, f) { assert k in executions; }
    }
    SameReservations(w, v);
    StepKeeps(w, v);
  }

  lemma StopWorkKeeps(w: World, e: EngagementId)
    requires Inv(w) && EngageStopWork(w, e).Success?
    ensures Inv(EngageStopWork(w, e).value.world) && NothingActive(EngageStopWork(w, e).value.world, e)
  {
    var v := EngageStopWork(w, e).value.world;
    BrakeExecutionsKeeps(w, e, v.executions);
    var u := w.(executions := v.executions);
    assert EngagementOk(u, e);
    EngagementRowKeeps(u, e, v.engagements[e]);
    assert v == WithEngagement(u, e, v.engagements[e]);
  }

  lemma ReleaseKeeps(w: World, e: EngagementId)
    requires Inv(w) && ReleaseStopWork(w, e).Success?
    ensures Inv(ReleaseStopWork(w, e).value.world)
  {
    assert EngagementOk(w, e);
    EngagementRowKeeps(w, e, ReleaseStopWork(w, e).value.world.engagements[e]);
  }
}
