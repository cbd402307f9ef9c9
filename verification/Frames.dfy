/** What a step that concerns one job leaves alone, and why every other row stays consistent. */
module Frames {
  import opened Wrappers
  import opened Records
  import opened Budgets
  import opened JobSteps
  import opened ManagedSteps
  import opened Protocol

  // ----- Rows of other jobs -----

  ghost predicate SameRows(w: World, v: World, k: JobId) {
    && (k in w.jobs <==> k in v.jobs) && (k in w.jobs ==> w.jobs[k] == v.jobs[k])
    && (k in w.executions <==> k in v.executions) && (k in w.executions ==> w.executions[k] == v.executions[k])
    && (k in w.receipts <==> k in v.receipts)
    && (k in w.contracts <==> k in v.contracts) && (k in w.contracts ==> w.contracts[k] == v.contracts[k])
    && (k in w.history.evidence <==> k in v.history.evidence)
  }

  predicate SameSubject(a: Approval, b: Approval) {
    a.job == b.job && a.engagement == b.engagement && a.caseHash == b.caseHash
  }

  ghost predicate SameApproval(w: World, v: World, j: JobId, a: ApprovalId) {
    && (a in w.approvals ==> a in v.approvals && SameSubject(w.approvals[a], v.approvals[a]))
    && (a in v.approvals && v.approvals[a].job != j ==> a in w.approvals && w.approvals[a] == v.approvals[a])
  }

  ghost predicate SameReceipts(w: World, v: World, j: JobId, c: ContractId) {
    && (c in v.results && v.results[c].job != j ==> c in w.results && w.results[c] == v.results[c])
    && (c in w.results && w.results[c].job != j ==> c in v.results && w.results[c] == v.results[c])
    && (c in v.stops && v.stops[c].job != j ==> c in w.stops && w.stops[c] == v.stops[c])
    && (c in w.stops && w.stops[c].job != j ==> c in v.stops && w.stops[c] == v.stops[c])
  }

  ghost predicate SameAuthority(w: World, v: World) {
    && w.engagements.Keys == v.engagements.Keys
    && (forall e {:trigger SameAuthorityAt(w.engagements[e], v.engagements[e])} :: e in w.engagements ==>
         SameAuthorityAt(w.engagements[e], v.engagements[e]))
    && w.history.jobs <= v.history.jobs && w.history.engagements == v.history.engagements
  }

  predicate SameAuthorityAt(g: Engagement, h: Engagement) {
    g.authority == h.authority && g.revision == h.revision && g.owner == h.owner && g.cases == h.cases
  }

  /** The two stores agree on every authority fact and on every row that does not belong to job j. */
  ghost predicate OnlyJob(w: World, v: World, j: JobId) {
    && (forall k {:trigger SameRows(w, v, k)} :: k != j ==> SameRows(w, v, k))
    && (forall a :: SameApproval(w, v, j, a))
    && (forall c :: SameReceipts(w, v, j, c))
    && SameAuthority(w, v)
  }

  /** Every row that belongs to job j is consistent. */
  ghost predicate JobRowsOk(w: World, j: JobId) {
    && (j in w.jobs ==> JobOk(w, j))
    && (j in w.executions ==> ExecutionOk(w, j))
    && (j in w.receipts ==> j in w.jobs)
    && (j in w.contracts ==> ContractOk(w, j))
    && (forall a {:trigger ApprovalOk(w, a)} :: a in w.approvals && w.approvals[a].job == j ==> ApprovalOk(w, a))
    && (forall c {:trigger ResultOk(w, c)} :: c in w.results && w.results[c].job == j ==> ResultOk(w, c))
    && (forall c {:trigger StopOk(w, c)} :: c in w.stops && w.stops[c].job == j ==> StopOk(w, c))
    && ContractIdsDistinct(w)
  }

  lemma FrameJob(w: World, v: World, j: JobId, k: JobId)
    requires RowsOk(w) && OnlyJob(w, v, j) && k != j && k in v.jobs
    ensures JobOk(v, k)
  {
    assert SameRows(w, v, k) && JobOk(w, k);
    if w.jobs[k].approval.Some? {
      assert SameApproval(w, v, j, w.jobs[k].approval.value);
    }
    assert SameAuthorityAt(w.engagements[w.jobs[k].engagement], v.engagements[w.jobs[k].engagement]);
  }

  lemma FrameExecution(w: World, v: World, j: JobId, k: JobId)
    requires RowsOk(w) && OnlyJob(w, v, j) && k != j && k in v.executions
    ensures ExecutionOk(v, k)
  {
    assert SameRows(w, v, k) && ExecutionOk(w, k);
    assert SameAuthorityAt(w.engagements[w.jobs[k].engagement], v.engagements[w.jobs[k].engagement]);
    if k in w.contracts {
      var c := w.contracts[k].id;
      assert SameReceipts(w, v, j, c);
      if c in w.results { assert ResultOk(w, c); }
      if c in w.stops { assert StopOk(w, c); }
    }
  }

  lemma FrameContract(w: World, v: World, j: JobId, k: JobId)
    requires RowsOk(w) && OnlyJob(w, v, j) && k != j && k in v.contracts
    ensures ContractOk(v, k)
  {
    assert SameRows(w, v, k) && ContractOk(w, k);
    assert SameApproval(w, v, j, w.contracts[k].approval);
  }

  lemma FrameApproval(w: World, v: World, j: JobId, a: ApprovalId)
    requires RowsOk(w) && OnlyJob(w, v, j) && a in v.approvals && v.approvals[a].job != j
    ensures ApprovalOk(v, a)
  {
    assert SameApproval(w, v, j, a) && ApprovalOk(w, a);
    assert SameRows(w, v, w.approvals[a].job);
    var e := w.approvals[a].engagement;
    if e in w.engagements { assert SameAuthorityAt(w.engagements[e], v.engagements[e]); }
  }

  lemma FrameResult(w: World, v: World, j: JobId, c: ContractId)
    requires RowsOk(w) && OnlyJob(w, v, j) && c in v.results && v.results[c].job != j
    requires JobRowsOk(v, j)
    ensures ResultOk(v, c)
  {
    assert SameReceipts(w, v, j, c) && ResultOk(w, c);
    assert SameRows(w, v, w.results[c].job);
    assert c in v.stops && v.stops[c].job == j ==> StopOk(v, c);
  }

  lemma FrameStop(w: World, v: World, j: JobId, c: ContractId)
    requires RowsOk(w) && OnlyJob(w, v, j) && c in v.stops && v.stops[c].job != j
    ensures StopOk(v, c)
  {
    assert SameReceipts(w, v, j, c) && StopOk(w, c);
    assert SameRows(w, v, w.stops[c].job);
  }

  lemma FrameRows(w: World, v: World, j: JobId)
    requires RowsOk(w) && OnlyJob(w, v, j) && JobRowsOk(v, j)
    ensures RowsOk(v)
  {
    forall k | k in v.jobs ensures JobOk(v, k) { if k != j { FrameJob(w, v, j, k); } }
    forall k | k in v.executions ensures ExecutionOk(v, k) { if k != j { FrameExecution(w, v, j, k); } }
    forall k | k in v.receipts ensures k in v.jobs { if k != j { assert SameRows(w, v, k); } }
    forall k | k in v.contracts ensures ContractOk(v, k) { if k != j { FrameContract(w, v, j, k); } }
    forall a | a in v.approvals ensures ApprovalOk(v, a) { if v.approvals[a].job != j { FrameApproval(w, v, j, a); } }
    forall c | c in v.results ensures ResultOk(v, c) { if v.results[c].job != j { FrameResult(w, v, j, c); } }
    forall c | c in v.stops ensures StopOk(v, c) { if v.stops[c].job != j { FrameStop(w, v, j, c); } }
  }

  // ----- Accounts -----

  lemma SubsetSize<T>(a: set<T>, b: set<T>)
    requires a <= b
    ensures |a| <= |b|
  {
    assert b == a + (b - a);
  }

  /** Job j holds reserved capacity of engagement e. */
  predicate Reserves(w: World, j: JobId, e: EngagementId) {
    j in ReservedJobs(w, e)
  }

  /** A step on one job that charges nothing and reserves nothing keeps every account in order. */
  lemma FrameAccounts(w: World, v: World, j: JobId)
    requires AccountsOk(w) && OnlyJob(w, v, j)
    requires v.engagements == w.engagements && v.history.charges == w.history.charges
    requires forall e :: Reserves(v, j, e) ==> Reserves(w, j, e)
    ensures AccountsOk(v)
  {
    forall e | e in v.engagements ensures EngagementOk(v, e) {
      assert EngagementOk(w, e);
      forall k | k in ReservedJobs(v, e) ensures k in ReservedJobs(w, e) {
        if k != j { assert SameRows(w, v, k); } else { assert Reserves(v, j, e); }
      }
      SubsetSize(ReservedJobs(v, e), ReservedJobs(w, e));
    }
  }

  /** A store that differs only in the clock and in history's record of jobs made is as consistent. */
  lemma JobStepKeeps(w: World, v: World, j: JobId)
    requires Inv(w) && OnlyJob(w, v, j) && JobRowsOk(v, j) && HistoryOk(v)
    requires v.engagements == w.engagements && v.history.charges == w.history.charges
    requires forall e :: Reserves(v, j, e) ==> Reserves(w, j, e)
    ensures Inv(v)
  {
    FrameRows(w, v, j);
    FrameAccounts(w, v, j);
    hide Inv, OnlyJob, JobRowsOk; // those who call this establish these by name
  }

  // ----- Steps that leave the managed records alone -----

  /** Facts may move on, but only together with the revision. */
  predicate MovesOn(g: Engagement, h: Engagement) {
    g.revision <= h.revision && (g.revision == h.revision ==> g.authority == h.authority)
  }

  predicate StaysEnded(w: World, v: World, j: JobId) {
    j in v.jobs && j in w.executions && w.executions[j].phase.Ended? ==>
      j in v.executions && v.executions[j].phase == w.executions[j].phase
  }

  ghost predicate ManagedRecordsKept(w: World, v: World) {
    && v.approvals == w.approvals && v.contracts == w.contracts && v.results == w.results && v.stops == w.stops
    && w.history.jobs <= v.history.jobs && w.history.engagements <= v.history.engagements
    && w.history.evidence <= v.history.evidence
    && (forall j {:trigger j in v.jobs} :: j in v.jobs ==> j in w.jobs || j !in w.history.jobs)
    && (forall j {:trigger StaysEnded(w, v, j)} :: StaysEnded(w, v, j))
    && (forall e {:trigger e in v.engagements} :: e in v.engagements ==>
          if e in w.engagements then MovesOn(w.engagements[e], v.engagements[e]) else e !in w.history.engagements)
  }

  lemma ManagedRecordsStayOk(w: World, v: World)
    requires RowsOk(w) && ManagedRecordsKept(w, v)
    ensures forall j {:trigger ContractOk(v, j)} :: j in v.contracts ==> ContractOk(v, j)
    ensures forall a {:trigger ApprovalOk(v, a)} :: a in v.approvals ==> ApprovalOk(v, a)
    ensures forall c {:trigger ResultOk(v, c)} :: c in v.results ==> ResultOk(v, c)
    ensures forall c {:trigger StopOk(v, c)} :: c in v.stops ==> StopOk(v, c)
    ensures ContractIdsDistinct(v)
  {
    forall j | j in v.contracts ensures ContractOk(v, j) { assert ContractOk(w, j); }
    forall a | a in v.approvals ensures ApprovalOk(v, a) { assert ApprovalOk(w, a); }
    forall c | c in v.results ensures ResultOk(v, c) {
      assert ResultOk(w, c) && ContractOk(w, w.results[c].job) && StaysEnded(w, v, w.results[c].job);
    }
    forall c | c in v.stops ensures StopOk(v, c) {
      assert StopOk(w, c) && ContractOk(w, w.stops[c].job) && StaysEnded(w, v, w.stops[c].job);
    }
  }

  /** Every row names a job that was really created. */
  lemma RowsNameRealJobs(w: World)
    requires RowsOk(w)
    ensures forall j :: j in w.jobs || j in w.executions || j in w.receipts || j in w.contracts ==> j in w.history.jobs
    ensures forall a :: a in w.approvals ==> w.approvals[a].job in w.history.jobs
    ensures forall c :: c in w.results ==> w.results[c].job in w.history.jobs
    ensures forall c :: c in w.stops ==> w.stops[c].job in w.history.jobs
  {
    forall j | j in w.jobs ensures j in w.history.jobs { assert JobOk(w, j); }
    forall j | j in w.executions ensures j in w.history.jobs { assert ExecutionOk(w, j); }
    forall j | j in w.contracts ensures j in w.history.jobs { assert ContractOk(w, j); }
    forall a | a in w.approvals ensures w.approvals[a].job in w.history.jobs { assert ApprovalOk(w, a); }
    forall c | c in w.results ensures w.results[c].job in w.history.jobs {
      assert ResultOk(w, c) && ContractOk(w, w.results[c].job);
    }
    forall c | c in w.stops ensures w.stops[c].job in w.history.jobs {
      assert StopOk(w, c) && ContractOk(w, w.stops[c].job);
    }
  }

  /** Receipts are filed under the contract of the job they name. */
  lemma ReceiptsFiled(w: World)
    requires RowsOk(w)
    ensures forall c :: c in w.results ==> w.results[c].job in w.contracts && w.contracts[w.results[c].job].id == c
    ensures forall c :: c in w.stops ==> w.stops[c].job in w.contracts && w.contracts[w.stops[c].job].id == c
  {
    forall c | c in w.results ensures w.results[c].job in w.contracts && w.contracts[w.results[c].job].id == c {
      assert ResultOk(w, c);
    }
    forall c | c in w.stops ensures w.stops[c].job in w.contracts && w.contracts[w.stops[c].job].id == c {
      assert StopOk(w, c);
    }
  }

  /** A pending job has no execution, no contract and no receipt of either kind. */
  lemma PendingHoldsNothing(w: World, j: JobId)
    requires RowsOk(w) && j in w.jobs && w.jobs[j].status == Pending
    ensures j !in w.executions && j !in w.contracts
    ensures forall c :: c in w.results ==> w.results[c].job != j
    ensures forall c :: c in w.stops ==> w.stops[c].job != j
  {
    assert JobOk(w, j);
    forall k | k in w.executions ensures k in w.jobs && w.jobs[k].status != Pending { assert ExecutionOk(w, k); }
    ReceiptsFiled(w);
  }

  /** The three ways a legacy finish commits: a repeat, an end, or a change of phase short of an end. */
  lemma LegacyFinishShape(w: World, j: JobId, holder: Holder, outcome: FinishOutcome, system: Instant, now: Instant)
    requires LegacyFinish(w, j, holder, outcome, system, now).Success?
    ensures Known(w, j) && j in w.executions && !Managed(w.jobs[j])
    ensures var x, v := w.executions[j], LegacyFinish(w, j, holder, outcome, system, now).value.world;
            || (x.phase.Ended? && v == w)
            || (!x.phase.Ended? && outcome.Definite? && v == Terminated(w, j, outcome.outcome, now)
                && (outcome.outcome == Completed ==> x.phase == Active && system < x.expiresAt
                                                     && !w.engagements[w.jobs[j].engagement].authority.stopWork))
            || (!x.phase.Ended? && v == WithExecution(w, j, x.(phase := CancelRequested)))
            || (!x.phase.Ended? && v == WithExecution(w, j, x.(phase := Uncertain)))
  {
  }

  /** The store after a new approval is registered for a job. */
  function WithApproval(w: World, j: JobId, id: ApprovalId, row: Approval): World
    requires j in w.jobs
  {
    var job := w.jobs[j].(approval := Some(id), contractRequired := true);
    w.(jobs := w.jobs[j := job], approvals := w.approvals[id := row])
  }

  /** What a new approval row must respect. */
  predicate FitsJob(w: World, j: JobId, id: ApprovalId, row: Approval)
    requires Known(w, j)
  {
    && row.job == j && row.engagement == w.jobs[j].engagement && row.issued == 0 && !row.revoked
    && row.envelope.id == id && row.owner == row.envelope.approver && row.envelope.context.maxExecutions >= 0
    && row.envelope.context.job == j && row.envelope.context.engagement == row.engagement
    && row.envelope.context.caseHash == row.caseHash
    && RevisionStandsFor(w.engagements[row.engagement], row.envelope.context)
  }

  /** A registration is a repeat, or a new row on a pending job that fits what is stored. */
  lemma RegisterShape(w: World, q: RegisterRequest)
    requires Register(w, q).Success?
    ensures Known(w, q.job) && w.observed.Some? && w.observed.value <= q.locked
    ensures var v := Register(w, q).value.world;
            var id, g := q.envelope.id, w.jobs[q.job].engagement;
            var row := Approval(q.job, g, q.authorization, q.actor, q.envelope, q.caseHash, 0, false);
            if id in w.approvals then v == w.(observed := Some(q.locked))
            else
              && w.jobs[q.job].status == Pending && FitsJob(w, q.job, id, row)
              && v == WithApproval(w, q.job, id, row).(observed := Some(q.locked))
  {
    hide WithinValidity;
    if q.envelope.id in w.approvals {
      assert Register(w, q).value.world == w.(observed := Some(q.locked));
    } else {
      assert q.envelope.id !in w.approvals;
    }
  }
}
