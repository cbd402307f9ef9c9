/** What stands over whole runs: capacity in use keeps its job, what was charged is never forgotten, and the recorded
    clock refuses whatever is sampled before it. */
module Standing {
  import opened Wrappers
  import opened Records
  import opened JobSteps
  import opened ManagedSteps
  import opened Protocol
  import opened Frames
  import opened ClaimPreservation
  import opened Evolution
  import opened Runs
  import opened Footprints
  import opened Guarantees
  import opened Admission
  import opened Starts

  // ----- What is held or was spent is never lost -----

  /** No event makes a job disappear while its execution holds reserved capacity, or an engagement in which anything
      was ever charged. */
  lemma NothingHeldIsLost(w: World, ev: Event)
    ensures forall j :: j in w.jobs && j !in Next(w, ev).jobs ==> !(j in w.executions && w.executions[j].reserved)
    ensures forall e :: e in w.engagements && e !in Next(w, ev).engagements ==>
                          w.engagements[e].targetsSpent == 0 && w.engagements[e].durationAllocated == 0
  {
    hide Transact, Claims, Moves, Fresh;
    if !Claims(ev) {
      OnlyClaimsStart(w, ev);
    } else if Transact(w, ev).Success? {
      ClaimStartsOnlyItsJob(w, ev);
    }
  }

  predicate EverCharged(w: World, e: EngagementId) {
    e in w.engagements && w.engagements[e].targetsSpent + w.engagements[e].durationAllocated > 0
  }

  lemma NextStaysCharged(w: World, ev: Event, e: EngagementId)
    requires Inv(w) && EverCharged(w, e)
    ensures EverCharged(Next(w, ev), e)
  {
    hide Next, Inv;
    NothingHeldIsLost(w, ev);
    NextLater(w, ev);
    assert EngagementLater(w, Next(w, ev), e);
  }

  lemma {:induction false} RunStaysCharged(w: World, evs: seq<Event>, e: EngagementId)
    requires Inv(w) && EverCharged(w, e)
    ensures EverCharged(Run(w, evs), e)
  {
    hide Next, Inv, EverCharged;
    if evs != [] {
      var front := evs[..|evs| - 1];
      RunStaysCharged(w, front, e);
      RunInvariant(w, front);
      NextStaysCharged(Run(w, front), evs[|evs| - 1], e);
    }
  }

  /** An engagement in which anything was ever charged is there for good, over every run. */
  lemma ChargedNeverForgotten(w: World, v: World, e: EngagementId)
    requires Reachable(w) && Leads(w, v) && e in w.engagements
    requires w.engagements[e].targetsSpent > 0 || w.engagements[e].durationAllocated > 0
    ensures e in v.engagements
  {
    ReachableInv(w);
    var evs :| v == Run(w, evs);
    hide Reachable, Leads, Run;
    RunStaysCharged(w, evs, e);
  }

  // ----- The recorded clock -----

  /** The first sample an event compares with the clock row, and the last one it records there. */
  function FirstSample(ev: Event): Option<Instant> {
    match ev
    case EvObserve(now) => Some(now)
    case EvRegister(q) => Some(q.locked)
    case EvRevoke(_, _, now) => Some(now)
    case EvClaim(q) => Some(q.locked)
    case EvCheckLive(q) => Some(q.clock.locked)
    case EvRenew(q) => Some(q.clock.locked)
    case EvConsume(q, _) => Some(q.clock.locked)
    case _ => None
  }

  function LastSample(ev: Event): Option<Instant> {
    match ev
    case EvClaim(q) => Some(q.relocked)
    case EvRenew(q) => Some(q.clock.relocked)
    case EvConsume(q, _) => Some(q.clock.relocked)
    case _ => FirstSample(ev)
  }

  lemma ClockSteps(w: World, ev: Event)
    ensures ev.EvObserve? ==> Transact(w, ev) == ObserveClock(w, ev.now)
    ensures ev.EvRegister? ==> Transact(w, ev) == Register(w, ev.register)
    ensures ev.EvRevoke? ==> Transact(w, ev) == Revoke(w, ev.j, ev.actor, ev.now)
    ensures ev.EvClaim? ==> Transact(w, ev) == ManagedClaim(w, ev.claim)
    ensures ev.EvCheckLive? ==> Transact(w, ev) == CheckLive(w, ev.live)
    ensures ev.EvRenew? ==> Transact(w, ev) == Renew(w, ev.live)
    ensures ev.EvConsume? ==> Transact(w, ev) == Consume(w, ev.live, ev.sha)
  {
    hide CreateJob, CreatePipeline, Poll, PatchJob, DeleteJob, LegacyClaim, LegacyRefresh, LegacyFinish, UploadResult;
    hide CreateEngagement, EditEngagement, ConfigureConcurrency, ConfigureTargets, ConfigureDuration;
    hide DeleteEngagement, EngageStopWork, ReleaseStopWork, ObserveClock;
    hide Register, Revoke, ManagedClaim, CheckLive, Renew, Consume, Submit, Finish, ReportStop;
  }

  /** A commit found the clock row at or before its first sample, and leaves it at its last. */
  lemma CommitRecords(w: World, ev: Event)
    requires FirstSample(ev).Some? && Transact(w, ev).Success?
    ensures w.observed.Some? ==> w.observed.value <= FirstSample(ev).value
    ensures FirstSample(ev).value <= LastSample(ev).value
    ensures Transact(w, ev).value.world.observed == LastSample(ev)
  {
    ClockSteps(w, ev);
    hide Transact, Register, Revoke, ManagedClaim, CheckLive, Renew, Consume, FitsJob, SignedFor, MayAct, MayIssue;
    hide BudgetsAllow, HasCeiling, LeaseCeiling, RenewalEnd;
    match ev
    case EvObserve(_) =>
    case EvRegister(q) => RegisterShape(w, q);
    case EvRevoke(j, actor, now) => RevocationExactly(w, j, actor, now);
    case EvClaim(q) =>
      ManagedClaimExactly(w, q);
      ManagedClaimWrote(w, q);
    case EvCheckLive(q) => CheckExactly(w, q);
    case EvRenew(q) => RenewalExactly(w, q);
    case EvConsume(q, sha) => LaunchExactly(w, q, sha);
  }

  /** Once an operation has committed, whatever happens in between, no operation commits whose first sample is before
      the last one recorded. */
  lemma ClockOrdersCommits(w: World, ev: Event, v: World, later: Event)
    requires Reachable(w) && FirstSample(ev).Some? && Transact(w, ev).Success?
    requires Leads(Transact(w, ev).value.world, v)
    requires FirstSample(later).Some? && FirstSample(later).value < LastSample(ev).value
    ensures Transact(v, later).Failure?
  {
    hide Reachable, Leads, Transact, Inv;
    var u := Transact(w, ev).value.world;
    ReachableInv(w);
    assert Inv(u) by {
      NextKeeps(w, ev);
      assert u == Next(w, ev);
    }
    LeadsLater(u, v);
    CommitRecords(w, ev);
    ClockStays(u, v);
    if Transact(v, later).Success? { CommitRecords(v, later); }
  }

  lemma ClockStays(u: World, v: World)
    requires Later(u, v) && u.observed.Some?
    ensures v.observed.Some? && u.observed.value <= v.observed.value
  {
  }

  // ----- Acting needs permission -----

  /** The status its job must have, and the sample its permission is judged at. */
  function StatusFor(ev: Event): Status {
    if ev.EvClaim? then Pending else Running
  }

  function PermittedAt(ev: Event): Instant
    requires ActsOn(ev).Some?
  {
    match ev
    case EvClaim(q) => q.permitted
    case EvCheckLive(q) => q.clock.permitted
    case EvRenew(q) => q.clock.permitted
    case EvConsume(q, _) => q.clock.permitted
    case EvFinish(q) => q.permitted
  }

  /** Every claim, check, renewal, launch and success commits only with all that permission rests on, at the sample
      it was judged at: enrolled, in scope, owned, unrevoked, signed and trusted for exactly what is stored, an
      active authorization, and the instant inside the approval and its testing window. */
  lemma ActionsArePermitted(w: World, ev: Event, j: JobId)
    requires ActsOn(ev) == Some(j) && Transact(w, ev).Success? && !Repeats(w, ev)
    ensures MayAct(w, j, FactsOf(ev), StatusFor(ev), PermittedAt(ev))
  {
    ActionSteps(w, ev);
    hide Transact, ManagedClaim, CheckLive, Renew, Consume, Finish, MayAct, MayIssue, BudgetsAllow, SignedFor;
    hide HasCeiling, LeaseCeiling, RenewalEnd, SuccessAllowed;
    match ev
    case EvClaim(q) => ManagedClaimExactly(w, q);
    case EvCheckLive(q) => CheckExactly(w, q);
    case EvRenew(q) => RenewalExactly(w, q);
    case EvConsume(q, sha) => LaunchExactly(w, q, sha);
    case EvFinish(q) => SuccessIsPermitted(w, q);
  }

  lemma SuccessIsPermitted(w: World, q: FinishRequest)
    requires Finish(w, q).Success? && q.outcome == Completed
    requires !(q.owned.binding.contract in w.results && w.results[q.owned.binding.contract].outcome.Some?)
    ensures MayAct(w, q.owned.job, q.facts, Running, q.permitted)
  {
    FinishIsHeld(w, q);
    CompletionExactly(w, q);
    hide Finish, MayAct, SignedFor, HasCeiling, LeaseCeiling, Holds;
  }

  lemma FinishIsHeld(w: World, q: FinishRequest)
    requires Finish(w, q).Success?
    ensures Holds(w, q.owned)
  {
    OwnerExactly(w, q.owned);
    hide OwnedConsumed, MayComplete, CheckCompletable, RetainedResult, Holds;
  }

  lemma ActionSteps(w: World, ev: Event)
    ensures ev.EvClaim? ==> Transact(w, ev) == ManagedClaim(w, ev.claim)
    ensures ev.EvCheckLive? ==> Transact(w, ev) == CheckLive(w, ev.live)
    ensures ev.EvRenew? ==> Transact(w, ev) == Renew(w, ev.live)
    ensures ev.EvConsume? ==> Transact(w, ev) == Consume(w, ev.live, ev.sha)
    ensures ev.EvFinish? ==> Transact(w, ev) == Finish(w, ev.finish)
  {
    ClockSteps(w, ev);
    ReceiptStep(w, ev);
    hide Transact;
  }
}
