/** What commits cost, what revocation, renewal and cancellation settle, and what deletion leaves. */
module Effects {
  import opened Wrappers
  import opened Records
  import opened Budgets
  import opened JobSteps
  import opened ManagedSteps
  import opened Protocol
  import opened Preservation
  import opened ClaimPreservation
  import opened ManagedPreservation
  import opened Evolution
  import opened Guarantees

  // ----- What a claim costs -----

  /** The one charge a claim adds: under a target limit, the number of origins of the case it froze; under
      a duration limit, the seconds it asked for; nothing where there is no limit. */
  predicate Charged(w: World, v: World, j: JobId, seconds: Option<Seconds>)
    requires j in w.jobs && w.jobs[j].engagement in w.engagements
  {
    var e := w.jobs[j].engagement;
    var limits := w.engagements[e].authority.limits;
    && j in v.jobs && e in v.engagements
    && |v.history.charges| == |w.history.charges| + 1 && v.history.charges[..|w.history.charges|] == w.history.charges
    && var charge := v.history.charges[|w.history.charges|];
       && charge.engagement == e && charge.job == j
       && v.engagements[e].targetsSpent == w.engagements[e].targetsSpent + charge.targets
       && v.engagements[e].durationAllocated == w.engagements[e].durationAllocated + charge.seconds
       && (if limits.targets.None? then charge.targets == 0
        else v.jobs[j].snapshot.Some? && v.jobs[j].snapshot.value.origins.Some?
                && charge.targets == |v.jobs[j].snapshot.value.origins.value| && 1 <= charge.targets <= 100)
       && (if limits.duration.None? then charge.seconds == 0 else seconds.Some? && charge.seconds == seconds.value)
  }

  lemma ChargeIsOrigins(g: Engagement, tool: Tool, spec: Option<CaseSpec>, supplied: Option<TargetBinding>)
    requires ChargeTargets(g, tool, spec, supplied).Success?
    ensures var n := ChargeTargets(g, tool, spec, supplied).value;
            if g.authority.limits.targets.None? then n == 0
            else spec.Some? && spec.value.origins.Some? && n == |spec.value.origins.value| && 1 <= n <= 100
                 && supplied == Some(TargetBinding(spec.value.hash, spec.value.origins.value))
  {
  }

  lemma LegacyClaimCharges(w: World, j: JobId, control: Option<Control>, now: Instant, system: Instant)
    requires LegacyClaim(w, j, control, now, system).Success?
    ensures Known(w, j)
    ensures Charged(w, LegacyClaim(w, j, control, now, system).value.world, j,
                    if control.Some? then control.value.seconds else None)
  {
    var job := w.jobs[j];
    var g := w.engagements[job.engagement];
    var snapshot := ClaimSnapshot(w, j).value;
    var binding := if control.Some? then control.value.binding else None;
    ChargeIsOrigins(g, job.tool, snapshot, binding);
    hide ChargeTargets, CheckCapacity;
  }

  lemma ManagedClaimCharges(w: World, q: ClaimRequest)
    requires ManagedClaim(w, q).Success?
    ensures Known(w, q.job) && Charged(w, ManagedClaim(w, q).value.world, q.job, q.control.seconds)
  {
    ManagedClaimPassed(w, q);
    ManagedClaimWrote(w, q);
    hide ManagedClaim, ChargeTargets, CheckCapacity, ClaimPermission, IssueContract, ContractIdTaken;
    var job := w.jobs[q.job];
    var g := w.engagements[job.engagement];
    ChargeIsOrigins(g, job.tool, Some(g.cases[job.testCase.value]), q.control.binding);
  }

  // ----- Revocation -----

  /** Once revoked, an approval never permits anything again, over any run. */
  lemma RevocationIsFinal(w: World, j: JobId, actor: UserId, locked: Instant, v: World, ev: Event, k: JobId)
    requires Reachable(w) && Revoke(w, j, actor, locked).Success? && Leads(Revoke(w, j, actor, locked).value.world, v)
    requires ActsOn(ev) == Some(k) && k in v.jobs && v.jobs[k].approval == w.jobs[j].approval && !Repeats(v, ev)
    ensures Transact(v, ev).Failure?
  {
    hide Reachable, Leads, Transact;
    var u, id := Revoke(w, j, actor, locked).value.world, w.jobs[j].approval.value;
    ReachableInv(w);
    RevokeKeeps(w, j, actor, locked);
    assert id in u.approvals && Stale(u, id);
    LeadsLater(u, v);
    StaleStaysStale(u, v, id);
    StaleRefuses(v, id, ev, k);
  }

  // ----- Renewal -----

  /** A renewal gives the full lease unless less than that, in whole seconds, is left under the ceiling. */
  lemma RenewalIsGenerous(w: World, q: LiveRequest)
    requires Renew(w, q).Success?
    ensures HasCeiling(w, q.job)
    ensures var y := Renew(w, q).value.world.executions[q.job];
            var instant := Max(q.clock.instant, q.clock.instantSystem);
            y.expiresAt == instant + LEASE || LeaseCeiling(w, q.job) - SECOND < y.expiresAt <= LeaseCeiling(w, q.job)
  {
    RenewalBounded(w, q);
    hide ClaimPermission, CheckEnvelope, Earliest;
  }

  // ----- Deleting -----

  /** Deleting a job removes its rows and nothing else, is refused while it holds capacity, and gives
      nothing back to the budgets. */
  lemma DeletionIsClean(w: World, j: JobId)
    requires Reachable(w) && DeleteJob(w, j).Success?
    ensures var v := DeleteJob(w, j).value.world;
            && v == w.(jobs := v.jobs, executions := v.executions, receipts := v.receipts)
            && v.jobs.Keys == w.jobs.Keys - {j} && v.executions.Keys == w.executions.Keys - {j}
            && (forall e :: e in w.engagements ==> ReservedJobs(v, e) == ReservedJobs(w, e))
            && j in v.history.jobs
  {
    hide Reachable, Leads;
    ReachableInv(w);
    assert JobOk(w, j);
    var v := DeleteJob(w, j).value.world;
    forall e | e in w.engagements ensures ReservedJobs(v, e) == ReservedJobs(w, e) {}
  }

  // ----- Asked to stop -----

  /** A legacy renewal says continue, and moves the lease, exactly while the execution is active, unbraked,
      unexpired and its job running; otherwise an active one is demoted and the lease stays. */
  lemma RefreshExactly(w: World, j: JobId, holder: Holder, system: Instant, renewal: Instant)
    requires LegacyRefresh(w, j, holder, system, renewal).Success?
    ensures Owned(w, j, holder)
    ensures var r, x := LegacyRefresh(w, j, holder, system, renewal).value, w.executions[j];
            var braked := w.engagements[w.jobs[j].engagement].authority.stopWork;
            var live := x.phase == Active && !braked && system < x.expiresAt;
            var y := r.world.executions[j];
            && (r.reply == Action(true) <==> live && w.jobs[j].status == Running)
            && y.expiresAt == (if r.reply == Action(true) then renewal + LEASE else x.expiresAt)
            && (y.phase == Active <==> live) && (x.phase != Active ==> y.phase == x.phase)
            && (y.phase != Active ==> (y.phase == Ended(Completed) <==> x.phase == Ended(Completed)))
            && r.world.jobs == w.jobs
  {
  }

  /** A status update on a controlled execution can only ask it to cancel: the job's status, the capacity it
      holds and every other row stay as they are. */
  lemma UpdateOnlyAsks(w: World, j: JobId, status: Status, now: Instant)
    requires j in w.executions && PatchJob(w, j, status, now).Success?
    ensures status == Failed && w.jobs[j].status == Running
    ensures var v := PatchJob(w, j, status, now).value.world;
            && v == w.(executions := v.executions)
            && v.executions == w.executions[j := Braked(w.executions[j])]
  {
  }

  /** The attempt is over for the runner: it was asked to stop, or it ended. */
  predicate Halted(w: World, j: JobId) {
    j in w.jobs && j in w.executions && w.executions[j].phase != Active
  }

  lemma HaltedLater(w: World, v: World, j: JobId)
    requires Inv(w) && Leads(w, v) && Halted(w, j) && j in v.jobs
    ensures Halted(v, j)
    ensures v.executions[j].phase == Ended(Completed) <==> w.executions[j].phase == Ended(Completed)
  {
    hide Leads;
    LeadsLater(w, v);
    hide Inv, LeaseLater;
    assert JobLater(w, v, j);
  }

  lemma HaltedRefused(w: World, j: JobId, q: LiveRequest, sha: Digest)
    requires Halted(w, j) && q.job == j
    ensures Renew(w, q).Failure? && Consume(w, q, sha).Failure?
  {
    hide ClaimPermission, CheckEnvelope, Ceiling, LockedTime;
  }

  lemma HaltedAnswersStop(w: World, j: JobId, holder: Holder, system: Instant, renewal: Instant)
    requires Halted(w, j)
    ensures LegacyRefresh(w, j, holder, system, renewal) in {Failure(NotFound), Failure(ManagedRequired),
                                                             Committed(w, Action(false))}
  {
    assert w.executions[j := w.executions[j]] == w.executions;
  }

  /** In a reachable store a legacy renewal answers stop exactly when it leaves the execution inactive: the job's
      own status never decides. That answer is final: over every later run the attempt is completed only if it
      already was, and a renewal that commits answers stop again and changes nothing. */
  lemma StopAnswerIsFinal(w: World, j: JobId, holder: Holder, system: Instant, renewal: Instant, v: World,
                          again: Holder, later: Instant, next: Instant)
    requires Reachable(w) && LegacyRefresh(w, j, holder, system, renewal).Success?
    ensures var c := LegacyRefresh(w, j, holder, system, renewal).value;
            && (c.reply == Action(false) <==> Halted(c.world, j))
            && (Halted(c.world, j) && Leads(c.world, v) && j in v.jobs ==>
                  && Halted(v, j)
                  && (v.executions[j].phase == Ended(Completed) <==> w.executions[j].phase == Ended(Completed))
                  && LegacyRefresh(v, j, again, later, next) in {Failure(NotFound), Failure(ManagedRequired),
                                                                 Committed(v, Action(false))})
  {
    hide Reachable, Leads;
    ReachableInv(w);
    RefreshKeeps(w, j, holder, system, renewal);
    RefreshExactly(w, j, holder, system, renewal);
    assert ExecutionOk(w, j);
    var u := LegacyRefresh(w, j, holder, system, renewal).value.world;
    if Halted(u, j) && Leads(u, v) && j in v.jobs {
      HaltedLater(u, v, j);
      HaltedAnswersStop(v, j, again, later, next);
    }
  }

  /** Asking a controlled execution to cancel is final: over every later run it is never active again, is
      completed only if it already was, and no launch or renewal of it commits. */
  lemma CancelIsFinal(w: World, j: JobId, status: Status, now: Instant, v: World, q: LiveRequest, sha: Digest)
    requires Reachable(w) && j in w.executions && PatchJob(w, j, status, now).Success?
    requires Leads(PatchJob(w, j, status, now).value.world, v) && j in v.jobs && q.job == j
    ensures Halted(v, j) && v.executions[j].phase != Ended(Completed)
    ensures Renew(v, q).Failure? && Consume(v, q, sha).Failure?
  {
    hide Reachable, Leads, Renew, Consume;
    var u := PatchJob(w, j, status, now).value.world;
    ReachableInv(w);
    PatchKeeps(w, j, status, now);
    UpdateOnlyAsks(w, j, status, now);
    assert ExecutionOk(w, j);
    HaltedLater(u, v, j);
    HaltedRefused(v, j, q, sha);
  }
}
