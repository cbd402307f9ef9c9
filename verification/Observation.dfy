/** What an enrolled observer may read about one approval, and when its consistency checks hold. */
module Observation {
  import opened Wrappers
  import opened Records
  import opened Budgets
  import opened JobSteps
  import opened ManagedSteps
  import opened Protocol
  import opened Frames
  import opened Guarantees

  /** The claim part of an observation: which contract, and whether it was consumed. */
  datatype ClaimSeen = ClaimSeen(binding: Binding, consumed: bool, phase: Phase, reserved: bool)

  datatype Observed = Observed(claimSeen: Option<ClaimSeen>, result: Option<ResultReceipt>,
                               completion: Option<Reply>, stop: Option<Reply>)

  function BindingOf(c: Contract): Binding {
    Binding(c.id, c.attempt, c.fence, c.sha)
  }

  predicate NoReceipts(w: World, j: JobId) {
    && (forall c :: c in w.results ==> w.results[c].job != j)
    && (forall c :: c in w.stops ==> w.stops[c].job != j)
  }

  /** A job whose registered approval the observer owns. */
  predicate Observable(w: World, j: JobId, owner: UserId) {
    && Known(w, j) && w.jobs[j].contractRequired && w.jobs[j].approval.Some? && w.jobs[j].approval.value in w.approvals
    && var a := w.approvals[w.jobs[j].approval.value];
       a.owner == owner && a.job == j && a.engagement == w.jobs[j].engagement
  }

  /** Read everything retained about the job; refuse if the records do not fit together. */
  function Inspect(w: World, j: JobId, owner: UserId, facts: Facts): Result<Observed, Reason> {
    var observable := Observable(w, j, owner);
    :- Need(observable, OwnerRequired);
    :- Need(facts.enrolled, EnrollmentRequired);
    var job := w.jobs[j];
    var a := w.approvals[job.approval.value];
    if j !in w.contracts || j !in w.executions then
      :- Need(j !in w.contracts && j !in w.executions && a.issued == 0 && job.status == Pending
              && NoReceipts(w, j), ClaimInconsistent);
      Success(Observed(None, None, None, None))
    else
      var c, x := w.contracts[j], w.executions[j];
      :- Need(c.approval == job.approval.value && job.snapshot.Some? && job.snapshot.value.hash == a.caseHash
              && c.fence >= 1,
              ClaimInconsistent);
      var o := OwnedRequest(j, x.holder, BindingOf(c));
      var result :- RetainedResult(w, o);
      var stop :- RetainedStop(w, o);
      :- Need(c.consumed || (result.None? && stop.None?), ConsumptionInconsistent);
      var completion :- CompletionSeen(result, x);
      var stopped :- StopSeen(stop, x);
      Success(Observed(Some(ClaimSeen(BindingOf(c), c.consumed, x.phase, x.reserved)),
                       if result.Some? then Some(ReceiptOf(result.value)) else None, completion, stopped))
  }

  function CompletionSeen(result: Option<ManagedResult>, x: Execution): Result<Option<Reply>, Reason> {
    if result.None? || result.value.outcome.None? then Success(None)
    else
      var ack :- CompletionAck(result.value, x);
      Success(Some(ack))
  }

  function StopSeen(stop: Option<ManagedStop>, x: Execution): Result<Option<Reply>, Reason> {
    if stop.None? then Success(None)
    else
      var ack :- StopAck(stop.value, x);
      Success(Some(ack))
  }

  /** Only an enrolled owner of the job's approval observes it. */
  lemma OnlyOwnersObserve(w: World, j: JobId, owner: UserId, facts: Facts)
    requires Inspect(w, j, owner, facts).Success?
    ensures j in w.jobs && w.jobs[j].approval.Some? && w.jobs[j].approval.value in w.approvals
    ensures w.approvals[w.jobs[j].approval.value].owner == owner && facts.enrolled
  {
    hide RetainedResult, RetainedStop, NoReceipts;
  }

  /** Its job was claimed, or is still waiting to be. */
  predicate ClaimedOrPending(w: World, j: JobId)
    requires j in w.jobs
  {
    j in w.contracts || w.jobs[j].status == Pending
  }

  /** In a reachable store the consistency checks of an observation hold exactly when the job was
      claimed or is still pending. The one family that fails is a registered job that left pending
      without ever being claimed. */
  lemma ObservationConsistent(w: World, j: JobId, owner: UserId, facts: Facts)
    requires Reachable(w) && Observable(w, j, owner) && facts.enrolled
    ensures Inspect(w, j, owner, facts).Success? <==> ClaimedOrPending(w, j)
    ensures Inspect(w, j, owner, facts).Failure? ==> Inspect(w, j, owner, facts).error == ClaimInconsistent
  {
    hide Reachable, Leads;
    ReachableInv(w);
    assert JobOk(w, j) && ApprovalOk(w, w.jobs[j].approval.value);
    if j in w.executions { assert ExecutionOk(w, j); }
    if j in w.contracts {
      assert ContractOk(w, j);
      ContractRecords(w, j);
    } else {
      ReceiptsFiled(w);
    }
  }

  /** The receipts of a claimed job, read back under its own binding, are well bound and acknowledged. */
  lemma ContractRecords(w: World, j: JobId)
    requires Inv(w) && j in w.contracts && j in w.executions
    ensures var o := OwnedRequest(j, w.executions[j].holder, BindingOf(w.contracts[j]));
            && RetainedResult(w, o).Success? && RetainedStop(w, o).Success?
            && (w.contracts[j].consumed || (RetainedResult(w, o).value.None? && RetainedStop(w, o).value.None?))
            && CompletionSeen(RetainedResult(w, o).value, w.executions[j]).Success?
            && StopSeen(RetainedStop(w, o).value, w.executions[j]).Success?
  {
    var c := w.contracts[j].id;
    assert ExecutionOk(w, j);
    ReceiptsFiled(w);
    if c in w.results { assert ResultOk(w, c); }
    if c in w.stops { assert StopOk(w, c); }
  }

  /** The failing family is reached from any store holding a registered pending job: one status update
      to failed or done commits, and observing the job is refused from then on. */
  lemma PatchedAwayUnclaimed(w: World, j: JobId, owner: UserId, facts: Facts, status: Status, t: Instant)
    requires Reachable(w) && Observable(w, j, owner) && facts.enrolled && w.jobs[j].status == Pending
    requires status == Done || status == Failed
    ensures Inspect(w, j, owner, facts).Success? && PatchJob(w, j, status, t).Success?
    ensures Inspect(PatchJob(w, j, status, t).value.world, j, owner, facts) == Failure(ClaimInconsistent)
  {
    hide Reachable, Leads;
    ReachableInv(w);
    PendingHoldsNothing(w, j);
    ObservationConsistent(w, j, owner, facts);
  }

  /** An observation never invents anything: what it reports is what the execution ended as. */
  lemma ObservationTellsTruth(w: World, j: JobId, owner: UserId, facts: Facts)
    requires Reachable(w) && Inspect(w, j, owner, facts).Success?
    ensures var seen := Inspect(w, j, owner, facts).value;
            && (seen.claimSeen.Some? <==> j in w.executions)
            && (seen.completion.Some? || seen.stop.Some? <==> j in w.executions && w.executions[j].phase.Ended?)
            && !(seen.completion.Some? && seen.stop.Some?)
            && (seen.completion.Some? ==> seen.completion.value.Completion?
                                          && w.executions[j].phase == Ended(seen.completion.value.outcome))
            && (seen.stop.Some? ==> seen.stop.value.Stopped? && w.executions[j].phase == Ended(seen.stop.value.outcome))
  {
    hide Reachable, Leads;
    ReachableInv(w);
    assert JobOk(w, j);
    if j in w.executions {
      assert ExecutionOk(w, j);
      var c := w.contracts[j].id;
      if c in w.results { assert ResultOk(w, c); }
      if c in w.stops { assert StopOk(w, c); }
    }
  }
}
