/** Evidence and terminal receipts over whole runs: stored once, answered the same for ever after. */
module Receipts {
  import opened Wrappers
  import opened Records
  import opened Budgets
  import opened JobSteps
  import opened ManagedSteps
  import opened Protocol
  import opened Preservation
  import opened ManagedPreservation
  import opened Evolution
  import opened Footprints
  import opened Guarantees

  /** Whatever mix of uploads, releases, registrations, submissions and completions a run holds, the
      evidence of a job was written at most once, and exactly once if its receipt is there. */
  lemma EvidenceOnce(w: World, j: JobId)
    requires Reachable(w)
    ensures w.history.evidence[j] <= 1
    ensures j in w.receipts ==> w.history.evidence[j] == 1
    ensures j in w.jobs && j !in w.receipts ==> w.history.evidence[j] == 0
  {
    ReachableInv(w);
    hide Reachable;
    if j in w.jobs { assert JobOk(w, j); }
    if j in w.receipts { assert j in w.jobs; }
  }

  // ----- Uploads -----

  predicate AnsweredBy(receipt: Digest, u: Upload) {
    receipt == u.payload.full || receipt == u.payload.legacy
  }

  lemma UploadFiles(w: World, j: JobId, u: Upload)
    requires UploadResult(w, j, u).Success?
    ensures var v := UploadResult(w, j, u).value.world;
            j in w.jobs && w.jobs[j].tool == Gate && v.jobs == w.jobs && j in v.receipts && AnsweredBy(v.receipts[j], u)
  {
  }

  lemma UploadAgain(v: World, j: JobId, again: Upload)
    requires Known(v, j) && !Managed(v.jobs[j]) && v.jobs[j].tool == Gate && j in v.receipts
    ensures UploadResult(v, j, again)
         == if AnsweredBy(v.receipts[j], again) then Committed(v, Stored(true)) else Failure(DifferentUpload)
  {
  }

  /** After an upload was accepted, every later upload for that job is answered from the receipt: the
      same payload is acknowledged and changes nothing, any other is refused. */
  lemma UploadSettled(w: World, v: World, j: JobId, u: Upload, again: Upload)
    requires Reachable(w) && UploadResult(w, j, u).Success? && Leads(UploadResult(w, j, u).value.world, v)
    requires j in v.jobs && !Managed(v.jobs[j])
    ensures j in v.receipts && AnsweredBy(v.receipts[j], u)
    ensures UploadResult(v, j, again)
         == if AnsweredBy(v.receipts[j], again) then Committed(v, Stored(true)) else Failure(DifferentUpload)
  {
    hide Reachable, Leads;
    var u' := UploadResult(w, j, u).value.world;
    ReachableInv(w);
    UploadFiles(w, j, u);
    hide UploadResult;
    StoreKeeps(w, j, u);
    LeadsLater(u', v);
    assert JobLater(u', v, j) && JobOk(v, j);
    UploadAgain(v, j, again);
  }

  // ----- Managed receipts -----

  /** Owning a consumed contract is for good, for as long as its job exists. */
  lemma OwnershipLasts(w: World, v: World, o: OwnedRequest)
    requires Inv(w) && Inv(v) && Later(w, v) && OwnedConsumed(w, o).Pass? && o.job in v.jobs
    ensures OwnedConsumed(v, o).Pass?
    ensures var a, b := w.approvals[w.jobs[o.job].approval.value], v.approvals[v.jobs[o.job].approval.value];
            a.envelope == b.envelope && a.caseHash == b.caseHash && w.jobs[o.job].snapshot == v.jobs[o.job].snapshot
  {
    assert JobLater(w, v, o.job) && ContractLater(w, v, o.job) && JobOk(w, o.job) && JobOk(v, o.job);
    assert ApprovalLater(w, v, w.jobs[o.job].approval.value);
  }

  /** What a submission that commits leaves behind. */
  lemma SubmitFiles(w: World, q: SubmitRequest)
    requires Submit(w, q).Success?
    ensures OwnedConsumed(w, q.owned).Pass?
    ensures var u, c := Submit(w, q).value.world, q.owned.binding.contract;
            && RetainedResult(u, q.owned).Success? && c in u.results && u.results[c].artifact == q.artifact
            && u.results[c].caseHash == w.approvals[w.jobs[q.owned.job].approval.value].caseHash
            && Submit(w, q).value.reply == Retained(ReceiptOf(u.results[c])) && q.owned.job in u.jobs
  {
    hide OwnedConsumed, AuthoritativeSpec, Min;
    OwnedRowsExist(w, q.owned);
  }

  /** Repeating a submission gives the same receipt and changes nothing; any other artifact is refused. */
  lemma SubmitSettled(w: World, v: World, q: SubmitRequest, locked: Instant, other: Digest)
    requires Reachable(w) && Submit(w, q).Success? && Leads(Submit(w, q).value.world, v) && q.owned.job in v.jobs
    requires other != q.artifact
    ensures Submit(v, q.(locked := locked)) == Committed(v, Submit(w, q).value.reply)
    ensures Submit(v, q.(locked := locked, artifact := other)) == Failure(DifferentResult)
  {
    hide Reachable, Leads;
    var u := Submit(w, q).value.world;
    ReachableInv(w);
    SubmitKeeps(w, q);
    SubmitLater(w, q);
    LeadsLater(u, v);
    SubmitFiles(w, q);
    OwnershipLasts(w, u, q.owned);
    OwnershipLasts(u, v, q.owned);
    assert ReceiptLater(u, v, q.owned.binding.contract);
    SubmitChecks(w, q);
    hide Inv, Later, Reachable, Leads, OwnedConsumed, StoreResult;
    SubmitAgain(v, q.(locked := locked));
    SubmitAgain(v, q.(locked := locked, artifact := other));
  }

  /** The checks of a submission that do not concern what is stored. */
  predicate SubmissionFits(w: World, q: SubmitRequest) {
    && OwnedConsumed(w, q.owned).Pass?
    && var job := w.jobs[q.owned.job];
       var a := w.approvals[job.approval.value];
       && 0 < q.size <= Min(MAX_RESULT_BYTES, a.envelope.context.maxArtifact) && q.wellFormed
       && job.snapshot.Some? && q.upload.caseHash == Some(job.snapshot.value.hash)
       && job.snapshot.value.hash == a.caseHash
       && q.upload.ref == Some(job.snapshot.value.ref)
  }

  lemma SubmitChecks(w: World, q: SubmitRequest)
    requires Submit(w, q).Success?
    ensures SubmissionFits(w, q)
  {
  }

  lemma SubmitAgain(v: World, q: SubmitRequest)
    requires SubmissionFits(v, q) && RetainedResult(v, q.owned).Success? && q.owned.binding.contract in v.results
    ensures var row := v.results[q.owned.binding.contract]; var a := v.approvals[v.jobs[q.owned.job].approval.value];
            Submit(v, q) == if row.artifact == q.artifact && row.caseHash == a.caseHash
                                                            then Committed(v, Retained(ReceiptOf(row)))
                                                            else Failure(DifferentResult)
  {
  }

  lemma FinishFiles(w: World, q: FinishRequest)
    requires Finish(w, q).Success?
    ensures OwnedConsumed(w, q.owned).Pass?
    ensures var u, c := Finish(w, q).value.world, q.owned.binding.contract;
            && RetainedResult(u, q.owned).Success? && c in u.results && u.results[c].outcome == Some(q.outcome)
            && ReceiptOf(u.results[c]) == q.receipt && q.owned.job in u.jobs
            && Finish(w, q).value.reply == Completion(q.receipt, q.outcome)
  {
    hide MayComplete, CheckCompletable;
  }

  /** Repeating a completion gives the same acknowledgement and changes nothing, live permission or not;
      any other outcome or receipt is refused. */
  lemma FinishSettled(w: World, v: World, q: FinishRequest, again: FinishRequest)
    requires Reachable(w) && Finish(w, q).Success? && Leads(Finish(w, q).value.world, v) && q.owned.job in v.jobs
    requires again.owned == q.owned
    ensures Finish(v, again) == if again.receipt != q.receipt then Failure(ResultReceiptRequired)
                                else if again.outcome != q.outcome then Failure(DifferentCompletion)
                                else Committed(v, Finish(w, q).value.reply)
  {
    hide Reachable, Leads;
    var u := Finish(w, q).value.world;
    ReachableInv(w);
    FinishKeeps(w, q);
    FinishLater(w, q);
    LeadsLater(u, v);
    FinishFiles(w, q);
    OwnershipLasts(w, u, q.owned);
    OwnershipLasts(u, v, q.owned);
    OwnedRows(v, q.owned);
    assert ReceiptLater(u, v, q.owned.binding.contract);
    hide Inv, Later, Reachable, Leads, OwnedConsumed;
    FinishAgain(v, again);
  }

  lemma FinishAgain(v: World, q: FinishRequest)
    requires OwnedConsumed(v, q.owned).Pass? && RetainedResult(v, q.owned).Success?
             && q.owned.binding.contract in v.results
    requires v.results[q.owned.binding.contract].outcome.Some?
    requires CompletionAck(v.results[q.owned.binding.contract], v.executions[q.owned.job]).Success?
    ensures var row := v.results[q.owned.binding.contract];
            Finish(v, q) == if q.receipt != ReceiptOf(row) then Failure(ResultReceiptRequired)
                            else if q.outcome != row.outcome.value then Failure(DifferentCompletion)
                            else Committed(v, Completion(q.receipt, q.outcome))
  {
    hide MayComplete, CheckCompletable;
  }

  lemma StopFiles(w: World, q: StopRequest)
    requires ReportStop(w, q).Success?
    ensures OwnedConsumed(w, q.owned).Pass?
    ensures var u, c := ReportStop(w, q).value.world, q.owned.binding.contract;
            && RetainedStop(u, q.owned).Success? && c in u.stops && u.stops[c].cause == q.cause && q.owned.job in u.jobs
            && u.stops[c].binding == q.owned.binding && u.stops[c].outcome == CauseOutcome(q.cause)
            && ReportStop(w, q).value.reply == Stopped(q.owned.binding, CauseOutcome(q.cause), q.cause)
  {
  }

  /** Repeating a stop report gives the same acknowledgement and changes nothing; any other cause is refused. */
  lemma StopSettled(w: World, v: World, q: StopRequest, again: StopRequest)
    requires Reachable(w) && ReportStop(w, q).Success? && Leads(ReportStop(w, q).value.world, v)
             && q.owned.job in v.jobs
    requires again.owned == q.owned
    ensures ReportStop(v, again) == if again.cause != q.cause then Failure(DifferentStop)
                                    else Committed(v, ReportStop(w, q).value.reply)
  {
    hide Reachable, Leads;
    var u := ReportStop(w, q).value.world;
    ReachableInv(w);
    ReportStopKeeps(w, q);
    ReportStopLater(w, q);
    LeadsLater(u, v);
    StopFiles(w, q);
    OwnershipLasts(w, u, q.owned);
    OwnershipLasts(u, v, q.owned);
    OwnedRows(v, q.owned);
    assert ReceiptLater(u, v, q.owned.binding.contract);
    hide Inv, Later, Reachable, Leads, OwnedConsumed;
    StopAgain(v, again);
  }

  lemma StopAgain(v: World, q: StopRequest)
    requires OwnedConsumed(v, q.owned).Pass? && RetainedStop(v, q.owned).Success? && q.owned.binding.contract in v.stops
    requires StopAck(v.stops[q.owned.binding.contract], v.executions[q.owned.job]).Success?
    ensures var row := v.stops[q.owned.binding.contract];
            ReportStop(v, q) == if q.cause != row.cause then Failure(DifferentStop)
                                else Committed(v, Stopped(row.binding, row.outcome, row.cause))
  {
  }

  // ----- Results and stops -----

  lemma OwnerIgnoresStops(w: World, o: OwnedRequest, stops: map<ContractId, ManagedStop>)
    ensures OwnedConsumed(w.(stops := stops), o) == OwnedConsumed(w, o)
    ensures RetainedResult(w.(stops := stops), o) == RetainedResult(w, o)
  {
  }

  lemma StoringIgnoresStops(w: World, j: JobId, u: Upload, stops: map<ContractId, ManagedStop>)
    requires Known(w, j)
    ensures var again := StoreResult(w.(stops := stops), j, u);
            match StoreResult(w, j, u)
            case Failure(e) => again == Failure(e)
            case Success(c) => again == Committed(c.world.(stops := stops), c.reply)
  {
  }

  /** A submission never looks at the stops: whatever they are, it is refused alike, or commits alike and
      leaves them. So a stop report neither keeps a result out nor lets one in. */
  lemma SubmissionIgnoresStops(w: World, q: SubmitRequest, stops: map<ContractId, ManagedStop>)
    ensures var again := Submit(w.(stops := stops), q);
            match Submit(w, q)
            case Failure(e) => again == Failure(e)
            case Success(c) => again == Committed(c.world.(stops := stops), c.reply)
  {
    hide OwnedConsumed, RetainedResult, StoreResult, Min;
    OwnerIgnoresStops(w, q.owned, stops);
    if OwnedConsumed(w, q.owned).Pass? {
      OwnedRowsExist(w, q.owned);
      StoringIgnoresStops(w, q.owned.job, q.upload, stops);
    }
  }

  /** Every stop ever stored took its outcome from its cause: a local emergency and a remote request cancel, every
      other cause fails; and unless its job was deleted, that is how the job's execution ended. */
  lemma StopCauseDecides(w: World, c: ContractId)
    requires Reachable(w) && c in w.stops
    ensures var row := w.stops[c];
            && row.outcome == (if row.cause == LocalEmergencyStop || row.cause == RemoteStopRequested then Cancelled
                               else Unsuccessful)
            && (row.job in w.jobs ==>
                  && w.jobs[row.job].status == Failed
                  && row.job in w.executions && w.executions[row.job].phase == Ended(row.outcome))
  {
    hide Reachable, Leads;
    ReachableInv(w);
    assert StopOk(w, c);
    if w.stops[c].job in w.jobs { assert ExecutionOk(w, w.stops[c].job); }
  }

  lemma StoppedRefusesCompletion(v: World, q: FinishRequest)
    requires Inv(v) && q.owned.binding.contract in v.stops
    ensures Finish(v, q).Failure?
  {
    hide MayComplete, CheckCompletable, CompletionAck;
    var c := q.owned.binding.contract;
    if OwnedConsumed(v, q.owned).Pass? {
      assert StopOk(v, c);
      if c in v.results { assert ResultOk(v, c); }
    }
  }

  /** Once a stop is stored, no completion of that contract ever commits, over any run. */
  lemma StoppedNeverCompletes(w: World, v: World, q: FinishRequest)
    requires Reachable(w) && Leads(w, v) && q.owned.binding.contract in w.stops
    ensures Finish(v, q).Failure?
  {
    hide Reachable, Leads, Finish, Inv;
    ReachableLater(w, v);
    assert ReceiptLater(w, v, q.owned.binding.contract);
    StoppedRefusesCompletion(v, q);
  }
}
