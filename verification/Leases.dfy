/** Where the lease of a contracted job comes from, and when the first one is inside its ceiling. */
module Leases {
  import opened Wrappers
  import opened Records
  import opened Budgets
  import opened ManagedSteps
  import opened Protocol
  import opened ClaimPreservation
  import opened Evolution
  import opened Footprints
  import opened Guarantees
  import opened Timing

  /** The claim gives the lease a fixed length from its own sample, and the ceiling is counted from the start
      it records and the seconds it was allocated. */
  lemma ClaimedLease(w: World, q: ClaimRequest)
    requires ManagedClaim(w, q).Success?
    ensures q.control.seconds.Some?
    ensures q.job in w.jobs && w.jobs[q.job].approval.Some? && w.jobs[q.job].approval.value in w.approvals
    ensures var v := ManagedClaim(w, q).value.world;
            && q.job in v.contracts && HasCeiling(v, q.job)
            && v.executions[q.job].expiresAt == q.system + LEASE
            && LeaseCeiling(v, q.job) == Ceiling(JobContext(w, q.job), q.started, q.control.seconds.value)
  {
    ManagedClaimPassed(w, q);
    ManagedClaimWrote(w, q);
    AllocatesAsAsked(w.engagements[w.jobs[q.job].engagement], q.control.seconds);
    hide ManagedClaim, ClaimPermission, CheckCapacity, ChargeTargets, AllocateDuration, IssueContract, ContractIdTaken;
    hide Ceiling;
  }

  lemma AllocatesAsAsked(g: Engagement, seconds: Option<Seconds>)
    requires seconds.Some? && AllocateDuration(g, seconds).Success?
    ensures AllocateDuration(g, seconds).value == seconds.value
  {
  }

  /** A whole lease, from the sample the claim took, is left on the approval, the testing window, every
      credential grant, and the start plus the smaller of the allocated and the approved duration. */
  predicate LeaseFits(context: Context, system: Instant, started: Instant, seconds: nat) {
    && system + LEASE <= context.expiresAt && system + LEASE <= context.testingEnd
    && (forall i :: 0 <= i < |context.grants| ==> system + LEASE <= context.grants[i])
    && system + LEASE <= started + SECOND * seconds && system + LEASE <= started + SECOND * context.maxDuration
  }

  /** The first lease is not clipped: it is inside its ceiling exactly when a whole lease is left on each end. */
  lemma FirstLeaseExactly(w: World, q: ClaimRequest)
    requires ManagedClaim(w, q).Success?
    ensures q.control.seconds.Some?
    ensures q.job in w.jobs && w.jobs[q.job].approval.Some? && w.jobs[q.job].approval.value in w.approvals
    ensures var v := ManagedClaim(w, q).value.world;
            && HasCeiling(v, q.job)
            && (v.executions[q.job].expiresAt <= LeaseCeiling(v, q.job)
                <==> LeaseFits(JobContext(w, q.job), q.system, q.started, q.control.seconds.value))
  {
    ClaimedLease(w, q);
    hide ManagedClaim, Ceiling;
    CeilingIsLeast(JobContext(w, q.job), q.started, q.control.seconds.value);
  }

  // ----- Over whole runs -----

  /** Step k of the run is the claim that issued the contract of j. */
  predicate IssuedAt(evs: seq<Event>, k: nat, j: JobId) {
    && k < |evs| && evs[k].EvClaim? && evs[k].claim.job == j
    && ManagedClaim(Run(EMPTY, evs[..k]), evs[k].claim).Success?
  }

  lemma IssuedAtOnce(u: World, ev: Event, j: JobId)
    requires j in Next(u, ev).contracts && j !in u.contracts
    ensures ev.EvClaim? && ev.claim.job == j && ManagedClaim(u, ev.claim).Success?
  {
    hide Transact, ManagedClaim;
    if !ev.EvClaim? { ContractsKept(u, ev); }
    ReceiptStep(u, ev);
    ManagedClaimWrote(u, ev.claim);
  }

  /** Every contract of a run was issued by one of its claims. */
  lemma {:induction false} ContractWasIssued(evs: seq<Event>, j: JobId) returns (k: nat)
    requires j in Run(EMPTY, evs).contracts
    ensures IssuedAt(evs, k, j)
  {
    hide Next, ManagedClaim;
    assert evs != [];
    k := |evs| - 1;
    var front := evs[..k];
    if j in Run(EMPTY, front).contracts {
      k := ContractWasIssued(front, j);
      assert front[..k] == evs[..k];
    } else {
      IssuedAtOnce(Run(EMPTY, front), evs[k], j);
    }
  }

  /** This claim, committed in a reachable store u before v, issued the contract of j. */
  ghost predicate ClaimedBy(u: World, q: ClaimRequest, v: World, j: JobId) {
    Reachable(u) && q.job == j && ManagedClaim(u, q).Success? && Leads(ManagedClaim(u, q).value.world, v)
  }

  /** In v the lease of j is under its ceiling, which is still the one of the claim; or it is still the very
      lease the claim gave, and no whole lease was left. */
  predicate CappedOrFirst(u: World, q: ClaimRequest, v: World, j: JobId)
    requires q.control.seconds.Some?
    requires j in u.jobs && u.jobs[j].approval.Some? && u.jobs[j].approval.value in u.approvals && HasCeiling(v, j)
  {
    var context, seconds, lease := JobContext(u, j), q.control.seconds.value, v.executions[j].expiresAt;
    && LeaseCeiling(v, j) == Ceiling(context, q.started, seconds)
    && (|| lease <= LeaseCeiling(v, j)
        || (lease == q.system + LEASE && !LeaseFits(context, q.system, q.started, seconds)))
  }

  lemma FirstLeaseLasts(u: World, q: ClaimRequest, v: World)
    requires ManagedClaim(u, q).Success? && Inv(ManagedClaim(u, q).value.world) && Inv(v)
    requires Later(ManagedClaim(u, q).value.world, v) && q.job in v.jobs
    ensures q.control.seconds.Some?
    ensures q.job in u.jobs && u.jobs[q.job].approval.Some? && u.jobs[q.job].approval.value in u.approvals
    ensures HasCeiling(v, q.job) && CappedOrFirst(u, q, v, q.job)
  {
    hide ManagedClaim, Inv, Ceiling, LeaseFits;
    var n := ManagedClaim(u, q).value.world;
    ClaimedLease(u, q);
    FirstLeaseExactly(u, q);
    CeilingFixed(n, v, q.job);
    assert JobLater(n, v, q.job);
  }

  lemma IssueStepLasts(evs: seq<Event>, k: nat, v: World, j: JobId)
    requires v == Run(EMPTY, evs) && j in v.jobs && IssuedAt(evs, k, j)
    ensures var u, q := Run(EMPTY, evs[..k]), evs[k].claim;
            && ClaimedBy(u, q, v, j) && HasCeiling(v, j) && q.control.seconds.Some?
            && j in u.jobs && u.jobs[j].approval.Some? && u.jobs[j].approval.value in u.approvals
            && CappedOrFirst(u, q, v, j)
  {
    hide Transact, ManagedClaim, Reachable, Leads, Inv, Later, CappedOrFirst;
    var u, q, n := Run(EMPTY, evs[..k]), evs[k].claim, Run(EMPTY, evs[..k + 1]);
    assert evs[..k + 1][..k] == evs[..k];
    assert n == ManagedClaim(u, q).value.world by { ReceiptStep(u, evs[k]); }
    Onward(evs, k);
    Onward(evs, k + 1);
    FirstLeaseLasts(u, q, v);
  }

  /** In every reachable store the lease of a contracted job is under its ceiling, unless it is still the one
      its claim gave and a whole lease was not left when that was given. */
  lemma LeaseCappedOrFirst(v: World, j: JobId)
    requires Reachable(v) && j in v.jobs && j in v.contracts
    ensures HasCeiling(v, j)
    ensures exists u: World, q: ClaimRequest ::
              && ClaimedBy(u, q, v, j) && q.control.seconds.Some?
              && j in u.jobs && u.jobs[j].approval.Some? && u.jobs[j].approval.value in u.approvals
              && CappedOrFirst(u, q, v, j)
  {
    var evs := SomeRun(v);
    var k := ContractWasIssued(evs, j);
    hide Reachable, Run, ClaimedBy, CappedOrFirst;
    IssueStepLasts(evs, k, v, j);
  }
}
