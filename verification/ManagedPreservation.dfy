/** Every claim, and every event of the managed adapters, keeps the invariant. */
module ManagedPreservation {
  import opened Wrappers
  import opened Records
  import opened Budgets
  import opened JobSteps
  import opened ManagedSteps
  import opened Protocol
  import opened Frames
  import opened Preservation

  // ----- Approvals -----

  lemma RegisteredOnly(w: World, j: JobId, id: ApprovalId, row: Approval)
    requires j in w.jobs && id !in w.approvals && row.job == j
    ensures OnlyJob(w, WithApproval(w, j, id, row), j)
  {
  }

  lemma RegisteredRows(w: World, j: JobId, id: ApprovalId, row: Approval)
    requires Inv(w) && Known(w, j) && w.jobs[j].status == Pending && id !in w.approvals && FitsJob(w, j, id, row)
    ensures JobRowsOk(WithApproval(w, j, id, row), j)
  {
    var v := WithApproval(w, j, id, row);
    assert JobOk(w, j) && EngagementOk(w, row.engagement);
    PendingHoldsNothing(w, j);
    forall a | a in v.approvals && v.approvals[a].job == j
      ensures ApprovalOk(v, a) { if a != id { assert ApprovalOk(w, a); } }
  }

  lemma RegisterRowKeeps(w: World, j: JobId, id: ApprovalId, row: Approval)
    requires Inv(w) && Known(w, j) && w.jobs[j].status == Pending && id !in w.approvals && FitsJob(w, j, id, row)
    ensures Inv(WithApproval(w, j, id, row))
  {
    hide OnlyJob, JobRowsOk, FitsJob;
    assert row.job == j by { FitNames(w, j, id, row); }
    RegisteredOnly(w, j, id, row);
    RegisteredRows(w, j, id, row);
    JobStepKeeps(w, WithApproval(w, j, id, row), j);
  }

  lemma FitNames(w: World, j: JobId, id: ApprovalId, row: Approval)
    requires Known(w, j) && FitsJob(w, j, id, row)
    ensures row.job == j
  {
  }

  lemma RegisterKeeps(w: World, q: RegisterRequest)
    requires Inv(w) && Register(w, q).Success?
    ensures Inv(Register(w, q).value.world)
  {
    RegisterShape(w, q);
    hide Register, FitsJob, Inv;
    if q.envelope.id in w.approvals {
      ClockKeeps(w, Some(q.locked));
    } else {
      var row := Approval(q.job, w.jobs[q.job].engagement, q.authorization, q.actor, q.envelope, q.caseHash, 0, false);
      RegisterRowKeeps(w, q.job, q.envelope.id, row);
      ClockKeeps(WithApproval(w, q.job, q.envelope.id, row), Some(q.locked));
    }
  }

  lemma RevokedOnly(w: World, id: ApprovalId)
    requires id in w.approvals
    ensures OnlyJob(w, w.(approvals := w.approvals[id := w.approvals[id].(revoked := true)]), w.approvals[id].job)
  {
  }

  lemma RevokeRowKeeps(w: World, id: ApprovalId)
    requires Inv(w) && id in w.approvals
    ensures Inv(w.(approvals := w.approvals[id := w.approvals[id].(revoked := true)]))
  {
    var v := w.(approvals := w.approvals[id := w.approvals[id].(revoked := true)]);
    var j := w.approvals[id].job;
    hide OnlyJob, EndedByReceipt, ContractNamed, ReservedJobs;
    forall a | a in v.approvals && v.approvals[a].job == j ensures ApprovalOk(v, a) { assert ApprovalOk(w, a); }
    forall c | c in v.results && v.results[c].job == j ensures ResultOk(v, c) { assert ResultOk(w, c); }
    forall c | c in v.stops && v.stops[c].job == j ensures StopOk(v, c) { assert StopOk(w, c); }
    if j in w.contracts { assert ContractOk(w, j); }
    if j in w.jobs { assert JobOk(w, j); }
    if j in w.executions { assert ExecutionOk(w, j); }
    RevokedOnly(w, id);
    JobStepKeeps(w, v, j);
  }

  lemma RevokeKeeps(w: World, j: JobId, actor: UserId, locked: Instant)
    requires Inv(w) && Revoke(w, j, actor, locked).Success?
    ensures Inv(Revoke(w, j, actor, locked).value.world)
  {
    var id := w.jobs[j].approval.value;
    RevokeRowKeeps(w, id);
    ClockKeeps(w.(approvals := w.approvals[id := w.approvals[id].(revoked := true)]), Some(locked));
  }

  // ----- Contracts -----

  lemma ConsumedOnly(w: World, j: JobId)
    requires j in w.contracts
    ensures OnlyJob(w, w.(contracts := w.contracts[j := w.contracts[j].(consumed := true)]), j)
  {
  }

  lemma ConsumedRows(w: World, j: JobId)
    requires Inv(w) && j in w.contracts
    ensures JobRowsOk(w.(contracts := w.contracts[j := w.contracts[j].(consumed := true)]), j)
  {
    var v := w.(contracts := w.contracts[j := w.contracts[j].(consumed := true)]);
    forall a | a in v.approvals && v.approvals[a].job == j ensures ApprovalOk(v, a) { assert ApprovalOk(w, a); }
    forall c | c in v.results && v.results[c].job == j ensures ResultOk(v, c) { assert ResultOk(w, c); }
    forall c | c in v.stops && v.stops[c].job == j ensures StopOk(v, c) { assert StopOk(w, c); }
    assert ContractOk(w, j);
    if j in w.jobs { assert JobOk(w, j); }
    if j in w.executions { assert ExecutionOk(w, j); }
  }

  lemma ConsumeRowKeeps(w: World, j: JobId)
    requires Inv(w) && j in w.contracts
    ensures Inv(w.(contracts := w.contracts[j := w.contracts[j].(consumed := true)]))
  {
    hide OnlyJob, JobRowsOk;
    ConsumedOnly(w, j);
    ConsumedRows(w, j);
    JobStepKeeps(w, w.(contracts := w.contracts[j := w.contracts[j].(consumed := true)]), j);
  }

  lemma ConsumeKeeps(w: World, q: LiveRequest, sha: Digest)
    requires Inv(w) && Consume(w, q, sha).Success?
    ensures Inv(Consume(w, q, sha).value.world)
  {
    hide Inv, CheckEnvelope, ClaimPermission;
    ConsumeRowKeeps(w, q.job);
    ClockKeeps(w.(contracts := w.contracts[q.job := w.contracts[q.job].(consumed := true)]), Some(q.clock.relocked));
  }

  lemma RenewKeeps(w: World, q: LiveRequest)
    requires Inv(w) && Renew(w, q).Success?
    ensures Inv(Renew(w, q).value.world)
  {
    hide Inv, CheckEnvelope, ClaimPermission, Ceiling, WholeSeconds;
    var y := Renew(w, q).value.world.executions[q.job];
    AdjustKeeps(w, q.job, y);
    ClockKeeps(WithExecution(w, q.job, y), Some(q.clock.relocked));
  }

  lemma CheckLiveKeeps(w: World, q: LiveRequest)
    requires Inv(w) && CheckLive(w, q).Success?
    ensures Inv(CheckLive(w, q).value.world)
  {
    hide Inv, CheckEnvelope, ClaimPermission;
    ClockKeeps(w, Some(q.clock.locked));
  }

  // ----- Results, completions, stops -----

  lemma ResultOnly(w: World, j: JobId, row: ManagedResult)
    requires row.job == j && row.binding.contract !in w.results
    ensures OnlyJob(w, w.(results := w.results[row.binding.contract := row]), j)
  {
  }

  lemma ResultRows(w: World, j: JobId, row: ManagedResult)
    requires Inv(w) && ContractNamed(w, j, row.binding) && row.job == j && row.outcome.None? && row.finishedAt.None?
    requires j in w.history.evidence && row.binding.contract !in w.results
    ensures JobRowsOk(w.(results := w.results[row.binding.contract := row]), j)
  {
    var v := w.(results := w.results[row.binding.contract := row]);
    forall a | a in v.approvals && v.approvals[a].job == j ensures ApprovalOk(v, a) { assert ApprovalOk(w, a); }
    ReceiptsFiled(w);
    forall c | c in v.stops && v.stops[c].job == j ensures StopOk(v, c) { assert StopOk(w, c); }
    assert ContractOk(w, j);
    if j in w.jobs { assert JobOk(w, j); }
    if j in w.executions { assert ExecutionOk(w, j); }
  }

  lemma ResultRowKeeps(w: World, j: JobId, row: ManagedResult)
    requires Inv(w) && ContractNamed(w, j, row.binding) && row.job == j && row.outcome.None? && row.finishedAt.None?
    requires j in w.history.evidence && row.binding.contract !in w.results
    ensures Inv(w.(results := w.results[row.binding.contract := row]))
  {
    hide OnlyJob, JobRowsOk;
    ResultOnly(w, j, row);
    ResultRows(w, j, row);
    JobStepKeeps(w, w.(results := w.results[row.binding.contract := row]), j);
  }

  lemma SubmitKeeps(w: World, q: SubmitRequest)
    requires Inv(w) && Submit(w, q).Success?
    ensures Inv(Submit(w, q).value.world)
  {
    var j, id := q.owned.job, q.owned.binding.contract;
    if id !in w.results {
      StoreKeeps(w, j, q.upload);
      var u := StoreResult(w, j, q.upload).value.world;
      var row := ManagedResult(j, q.owned.binding, q.artifact, w.approvals[w.jobs[j].approval.value].caseHash,
                               q.preflightFailed, None, None);
      ResultRowKeeps(u, j, row);
      ClockKeeps(u.(results := u.results[id := row]), Some(q.locked));
    }
  }

  /** Ending an execution touches only its job, if the receipts written with it do. */
  lemma EndedOnly(w: World, j: JobId, outcome: Outcome, at: Instant, results: map<ContractId, ManagedResult>,
                  stops: map<ContractId, ManagedStop>)
    requires j in w.jobs && j in w.executions
    requires forall c :: SameReceipts(w, w.(results := results, stops := stops), j, c)
    ensures OnlyJob(w, Terminated(w, j, outcome, at).(results := results, stops := stops), j)
  {
    var v := Terminated(w, j, outcome, at).(results := results, stops := stops);
    forall c ensures SameReceipts(w, v, j, c) { assert SameReceipts(w, w.(results := results, stops := stops), j, c); }
  }

  /** A contract's execution ended, together with the completion that says so. */
  function CompletedWith(w: World, j: JobId, id: ContractId, outcome: Outcome, at: Instant): World
    requires j in w.jobs && j in w.executions && id in w.results
  {
    Terminated(w, j, outcome,
               at).(results := w.results[id := w.results[id].(outcome := Some(outcome), finishedAt := Some(at))])
  }

  lemma CompletionRows(w: World, j: JobId, id: ContractId, outcome: Outcome, at: Instant)
    requires Inv(w) && j in w.jobs && j in w.executions && !w.executions[j].phase.Ended?
    requires id in w.results && w.results[id].job == j && (outcome == Completed ==> !w.results[id].preflightFailed)
    ensures JobRowsOk(CompletedWith(w, j, id, outcome, at), j)
  {
    var v := CompletedWith(w, j, id, outcome, at);
    assert ResultOk(w, id) && ContractOk(w, j) && JobOk(w, j) && ExecutionOk(w, j);
    ReceiptsFiled(w);
    forall a | a in v.approvals && v.approvals[a].job == j ensures ApprovalOk(v, a) { assert ApprovalOk(w, a); }
    forall c | c in w.stops ensures w.stops[c].job != j { assert StopOk(w, c); }
  }

  lemma CompletionRowKeeps(w: World, j: JobId, id: ContractId, outcome: Outcome, at: Instant)
    requires Inv(w) && j in w.jobs && j in w.executions && !w.executions[j].phase.Ended?
    requires id in w.results && w.results[id].job == j && (outcome == Completed ==> !w.results[id].preflightFailed)
    ensures Inv(CompletedWith(w, j, id, outcome, at))
  {
    hide OnlyJob, JobRowsOk;
    var v := CompletedWith(w, j, id, outcome, at);
    CompletionRows(w, j, id, outcome, at);
    EndedOnly(w, j, outcome, at, v.results, v.stops);
    JobStepKeeps(w, v, j);
  }

  /** A contract's execution ended, together with the stop receipt that says so. */
  function StoppedWith(w: World, j: JobId, row: ManagedStop): World
    requires j in w.jobs && j in w.executions
  {
    Terminated(w, j, row.outcome, row.finishedAt).(stops := w.stops[row.binding.contract := row])
  }

  lemma StopRows(w: World, j: JobId, row: ManagedStop)
    requires Inv(w) && ContractNamed(w, j, row.binding) && j in w.jobs && j in w.executions
             && !w.executions[j].phase.Ended?
    requires row.job == j && row.outcome == CauseOutcome(row.cause) && row.binding.contract !in w.results
    ensures JobRowsOk(StoppedWith(w, j, row), j)
  {
    var v := StoppedWith(w, j, row);
    assert ContractOk(w, j) && JobOk(w, j) && ExecutionOk(w, j);
    ReceiptsFiled(w);
    forall a | a in v.approvals && v.approvals[a].job == j ensures ApprovalOk(v, a) { assert ApprovalOk(w, a); }
  }

  lemma StopRowKeeps(w: World, j: JobId, row: ManagedStop)
    requires Inv(w) && ContractNamed(w, j, row.binding) && j in w.jobs && j in w.executions
             && !w.executions[j].phase.Ended?
    requires row.job == j && row.outcome == CauseOutcome(row.cause) && row.binding.contract !in w.results
    ensures Inv(StoppedWith(w, j, row))
  {
    hide OnlyJob, JobRowsOk;
    var v := StoppedWith(w, j, row);
    StopRows(w, j, row);
    ReceiptsFiled(w);
    assert ContractOk(w, j);
    EndedOnly(w, j, row.outcome, row.finishedAt, v.results, v.stops);
    JobStepKeeps(w, v, j);
  }

  lemma FinishKeeps(w: World, q: FinishRequest)
    requires Inv(w) && Finish(w, q).Success?
    ensures Inv(Finish(w, q).value.world)
  {
    var j, b := q.owned.job, q.owned.binding;
    var v := Finish(w, q).value.world;
    if w.results[b.contract].outcome.None? {
      CompletionRowKeeps(w, j, b.contract, q.outcome, q.finished);
      ClockKeeps(Terminated(w, j, q.outcome, q.finished).(results := v.results), Some(q.locked));
    }
  }

  lemma ReportStopKeeps(w: World, q: StopRequest)
    requires Inv(w) && ReportStop(w, q).Success?
    ensures Inv(ReportStop(w, q).value.world)
  {
    var j, b := q.owned.job, q.owned.binding;
    var v := ReportStop(w, q).value.world;
    if b.contract !in w.stops {
      StopRowKeeps(w, j, v.stops[b.contract]);
      ClockKeeps(Terminated(w, j, CauseOutcome(q.cause), q.finished).(stops := v.stops), Some(q.locked));
    }
  }
}
