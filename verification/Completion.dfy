/** Where a finished result came from, and what held at the moment it was finished. */
module Completion {
  import opened Wrappers
  import opened Records
  import opened JobSteps
  import opened ManagedSteps
  import opened Protocol
  import opened Evolution
  import opened Footprints
  import opened Guarantees
  import opened Timing

  /** In store u this completion is the first under contract c, and it commits. */
  predicate FirstCompletion(u: World, q: FinishRequest, c: ContractId) {
    && Finish(u, q).Success? && q.owned.binding.contract == c
    && c in u.results && u.results[c].outcome.None?
  }

  /** The row a first completion leaves. */
  function Closed(row: ManagedResult, q: FinishRequest): ManagedResult {
    row.(outcome := Some(q.outcome), finishedAt := Some(q.finished))
  }

  lemma FirstCloses(u: World, q: FinishRequest, c: ContractId)
    requires FirstCompletion(u, q, c)
    ensures c in Finish(u, q).value.world.results && Finish(u, q).value.world.results[c] == Closed(u.results[c], q)
  {
    hide OwnedConsumed, MayComplete, CheckCompletable;
    OwnedRowsExist(u, q.owned);
  }

  /** Step k of the run is the completion that closed this row. */
  predicate ClosedAt(evs: seq<Event>, k: nat, c: ContractId, row: ManagedResult) {
    && k < |evs| && evs[k].EvFinish?
    && var u := Run(EMPTY, evs[..k]);
    FirstCompletion(u, evs[k].finish, c) && row == Closed(u.results[c], evs[k].finish)
  }

  lemma ClosedAtOnce(u: World, ev: Event, c: ContractId)
    requires c in Next(u, ev).results && Next(u, ev).results[c].outcome.Some?
    requires !(c in u.results && u.results[c] == Next(u, ev).results[c])
    ensures ev.EvFinish? && FirstCompletion(u, ev.finish, c)
            && Next(u, ev).results[c] == Closed(u.results[c], ev.finish)
  {
    hide Transact, Finish;
    if !ev.EvFinish? { OutcomesKept(u, ev); }
    ReceiptStep(u, ev);
    FinishFootprint(u, ev.finish);
    FirstCloses(u, ev.finish, c);
  }

  /** Every finished result of a run was closed by one of its steps. */
  lemma {:induction false} FinishedResultWasClosed(evs: seq<Event>, c: ContractId) returns (k: nat)
    requires c in Run(EMPTY, evs).results && Run(EMPTY, evs).results[c].outcome.Some?
    ensures ClosedAt(evs, k, c, Run(EMPTY, evs).results[c])
  {
    hide Next, FirstCompletion;
    assert evs != [];
    k := |evs| - 1;
    var front, v := evs[..k], Run(EMPTY, evs);
    var u := Run(EMPTY, front);
    if c in u.results && u.results[c] == v.results[c] {
      k := FinishedResultWasClosed(front, c);
      assert front[..k] == evs[..k];
    } else {
      ClosedAtOnce(u, evs[k], c);
    }
  }

  /** This success, committed in a reachable store u before v, is the one that finished the result of job j. */
  ghost predicate CompletedBy(u: World, q: FinishRequest, v: World, j: JobId) {
    && j in v.contracts && v.contracts[j].id in v.results
    && Reachable(u) && FirstCompletion(u, q, v.contracts[j].id) && Leads(Finish(u, q).value.world, v)
    && q.owned.job == j && q.outcome == Completed
    && v.results[v.contracts[j].id].finishedAt == Some(q.finished)
    && j in u.executions && u.executions[j].phase == Active
  }

  /** Both of its live checks were strictly inside the lease and the ceiling, as they still stand in v. */
  predicate CheckedInTime(q: FinishRequest, v: World, j: JobId) {
    && HasCeiling(v, j)
    && Max(q.live, q.liveSystem) < v.executions[j].expiresAt && Max(q.live, q.liveSystem) < LeaseCeiling(v, j)
    && Max(q.final, q.finalSystem) < v.executions[j].expiresAt && Max(q.final, q.finalSystem) < LeaseCeiling(v, j)
  }

  /** The stored time, though unchecked, is on time exactly when the wall clock it was read from was. */
  ghost predicate StoredOnTimeExactly(q: FinishRequest, v: World, j: JobId)
    requires HasCeiling(v, j)
  {
    forall s: Samples {:trigger OneClock(q, s)} :: OneClock(q, s) ==>
      && s.anchor <= q.finished
      && (q.finished < LeaseCeiling(v, j) <==> s.wall < LeaseCeiling(v, j))
      && (q.finished < v.executions[j].expiresAt <==> s.wall < v.executions[j].expiresAt)
  }

  lemma ChecksLast(u: World, q: FinishRequest, n: World, v: World, c: ContractId)
    requires FirstCompletion(u, q, c) && q.outcome == Completed && n == Finish(u, q).value.world
    requires Inv(u) && Inv(v) && Later(u, v) && Later(n, v) && q.owned.job in v.jobs
    ensures CheckedInTime(q, v, q.owned.job) && StoredOnTimeExactly(q, v, q.owned.job)
    ensures q.owned.job in u.executions && u.executions[q.owned.job].phase == Active
  {
    hide Finish, LeaseCeiling, OneClock, Inv;
    var j := q.owned.job;
    CompletionChecked(u, q);
    OwnedRowsExist(u, q.owned) by { FinishOwned(u, q); }
    CeilingFixed(u, v, j);
    assert JobLater(n, v, j);
    forall s: Samples | OneClock(q, s)
      ensures s.anchor <= q.finished && (q.finished < LeaseCeiling(v, j) <==> s.wall < LeaseCeiling(v, j))
      ensures q.finished < v.executions[j].expiresAt <==> s.wall < v.executions[j].expiresAt
    {
      CompletionTimeExactly(u, q, s);
    }
  }

  lemma FinishOwned(u: World, q: FinishRequest)
    requires Finish(u, q).Success?
    ensures OwnedConsumed(u, q.owned).Pass?
  {
    hide OwnedConsumed, MayComplete, CheckCompletable, CompletionAck, RetainedResult;
  }

  /** The job named by a completion is the job of the row it closed. */
  lemma ClosesOwn(u: World, q: FinishRequest, c: ContractId)
    requires FirstCompletion(u, q, c)
    ensures u.results[c].job == q.owned.job
  {
    hide OwnedConsumed, MayComplete, CheckCompletable, CompletionAck;
  }

  lemma ClosingFound(v: World, j: JobId)
    requires Reachable(v) && j in v.jobs && j in v.contracts && v.contracts[j].id in v.results
    requires var row := v.results[v.contracts[j].id]; row.job == j && row.outcome == Some(Completed)
    ensures HasCeiling(v, j)
    ensures exists u: World, q: FinishRequest ::
              CompletedBy(u, q, v, j) && CheckedInTime(q, v, j) && StoredOnTimeExactly(q, v, j)
  {
    var evs := SomeRun(v);
    var k := FinishedResultWasClosed(evs, v.contracts[j].id);
    hide Reachable, Run;
    ClosedStepChecked(evs, k, v, j);
  }

  lemma ClosedStepChecked(evs: seq<Event>, k: nat, v: World, j: JobId)
    requires v == Run(EMPTY, evs) && j in v.jobs && j in v.contracts && v.contracts[j].id in v.results
    requires v.results[v.contracts[j].id].job == j && v.results[v.contracts[j].id].outcome == Some(Completed)
    requires ClosedAt(evs, k, v.contracts[j].id, v.results[v.contracts[j].id])
    ensures CompletedBy(Run(EMPTY, evs[..k]), evs[k].finish, v, j)
    ensures CheckedInTime(evs[k].finish, v, j) && StoredOnTimeExactly(evs[k].finish, v, j)
  {
    hide Finish, Transact, Reachable, Leads, Inv, Later, CheckedInTime, StoredOnTimeExactly, LeaseCeiling;
    hide FirstCompletion;
    var c := v.contracts[j].id;
    var u, q, n := Run(EMPTY, evs[..k]), evs[k].finish, Run(EMPTY, evs[..k + 1]);
    assert evs[..k + 1][..k] == evs[..k];
    assert Finish(u, q).Success? by { FirstCommits(u, q, c); }
    assert n == Finish(u, q).value.world by { ReceiptStep(u, evs[k]); }
    Onward(evs, k);
    Onward(evs, k + 1);
    ClosesOwn(u, q, c);
    ChecksLast(u, q, n, v, c);
  }

  lemma FirstCommits(u: World, q: FinishRequest, c: ContractId)
    requires FirstCompletion(u, q, c)
    ensures Finish(u, q).Success?
  {
    hide Finish;
  }

  /** A managed job that ran and is done was launched and has no stop; its stored result, without a
      preflight failure, was finished by a success that committed on an active execution strictly inside
      the lease and every ceiling at both checks; and the time it stored is on time exactly when the wall
      clock was. */
  lemma DoneMeansCompleted(v: World, j: JobId)
    requires Reachable(v) && j in v.jobs && j in v.executions && Managed(v.jobs[j]) && v.jobs[j].status == Done
    ensures v.executions[j].phase == Ended(Completed) && j in v.contracts && v.contracts[j].consumed
    ensures var c := v.contracts[j].id;
            c in v.results && v.results[c].outcome == Some(Completed) && !v.results[c].preflightFailed && c !in v.stops
    ensures HasCeiling(v, j)
    ensures exists u: World, q: FinishRequest ::
              CompletedBy(u, q, v, j) && CheckedInTime(q, v, j) && StoredOnTimeExactly(q, v, j)
  {
    DoneLeavesResult(v, j);
    hide Reachable;
    ClosingFound(v, j);
  }
}
