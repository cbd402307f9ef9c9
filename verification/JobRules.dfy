/** What the job and engagement routes accept and write, read from the stored rows and the request. */
module JobRules {
  import opened Wrappers
  import opened Records
  import opened Budgets
  import opened JobSteps

  // ----- Creating -----

  function NewRow(e: EngagementId, spec: JobSpec, parent: Option<JobId>): Job {
    Job(e, spec.tool, spec.testCase, parent, Pending, spec.contractRequired, None, None, None, None)
  }

  predicate CaseThere(w: World, e: EngagementId, spec: JobSpec)
    requires e in w.engagements
  {
    spec.tool == Gate ==> spec.testCase.Some? && spec.testCase.value in w.engagements[e].cases
  }

  /** A job is created exactly when its engagement is there and not under the brake, its identifier was never used,
      only a gate job asks for a contract, its case is stored and its parent is of the same engagement. */
  lemma CreationExactly(w: World, e: EngagementId, j: JobId, spec: JobSpec, parent: Option<JobId>)
    ensures CreateJob(w, e, j, spec, parent).Success? <==>
            && e in w.engagements && !w.engagements[e].authority.stopWork && j !in w.history.jobs && j !in w.jobs
            && (spec.contractRequired ==> spec.tool == Gate) && CaseThere(w, e, spec)
            && (parent.Some? ==> parent.value in w.jobs && w.jobs[parent.value].engagement == e)
    ensures CreateJob(w, e, j, spec, parent).Success? ==>
              CreateJob(w, e, j, spec, parent).value.world ==
              w.(jobs := w.jobs[j := NewRow(e, spec, parent)], history := w.history.(jobs := w.history.jobs + {j}))
  {
  }

  /** The i-th stage has been made and waits on the one before it. */
  predicate StageMade(v: World, e: EngagementId, stages: seq<(JobId, JobSpec)>, i: nat)
    requires i < |stages|
  {
    && stages[i].0 in v.jobs
    && v.jobs[stages[i].0] == NewRow(e, stages[i].1, if i == 0 then None else Some(stages[i - 1].0))
  }

  lemma {:induction false} ChainRows(w: World, e: EngagementId, stages: seq<(JobId, JobSpec)>)
    requires forall i, k :: 0 <= i < k < |stages| ==> stages[i].0 != stages[k].0
    ensures forall i :: 0 <= i < |stages| ==> StageMade(Chained(w, e, stages), e, stages, i)
  {
    if stages != [] {
      var n := |stages| - 1;
      var front := stages[..n];
      ChainRows(w, e, front);
      var u, v := Chained(w, e, front), Chained(w, e, stages);
      assert v == Added(u, e, stages[n].0, stages[n].1, if front == [] then None else Some(front[n - 1].0));
      hide Chained;
      forall i | 0 <= i < |stages| ensures StageMade(v, e, stages, i) {
        if i < n { assert StageMade(u, e, front, i) && stages[i].0 != stages[n].0; }
      }
    }
  }

  /** A pipeline is created exactly when it has one to eight stages with new identifiers, all different, none asking
      for a contract, each with its case stored; every stage then waits on the one before it. */
  lemma PipelineExactly(w: World, e: EngagementId, stages: seq<(JobId, JobSpec)>)
    ensures CreatePipeline(w, e, stages).Success? <==>
            && e in w.engagements && 1 <= |stages| <= 8
            && (forall i :: 0 <= i < |stages| ==>
                  && stages[i].0 !in w.history.jobs && stages[i].0 !in w.jobs
                  && !stages[i].1.contractRequired && CaseThere(w, e, stages[i].1))
            && (forall i, k :: 0 <= i < k < |stages| ==> stages[i].0 != stages[k].0)
    ensures CreatePipeline(w, e, stages).Success? ==>
              forall i :: 0 <= i < |stages| ==> StageMade(CreatePipeline(w, e, stages).value.world, e, stages, i)
  {
    hide Chained;
    if forall i, k :: 0 <= i < k < |stages| ==> stages[i].0 != stages[k].0 { ChainRows(w, e, stages); }
  }

  /** A pipeline never looks at the brake: on, it is created or refused exactly as when it is off. */
  lemma PipelinesIgnoreBrake(w: World, e: EngagementId, stages: seq<(JobId, JobSpec)>, on: bool)
    requires e in w.engagements
    ensures var g := w.engagements[e];
            var v := WithEngagement(w, e, g.(authority := g.authority.(stopWork := on)));
            CreatePipeline(v, e, stages).Success? <==> CreatePipeline(w, e, stages).Success?
  {
    hide CreatePipeline;
    var g := w.engagements[e];
    PipelineExactly(w, e, stages);
    PipelineExactly(WithEngagement(w, e, g.(authority := g.authority.(stopWork := on))), e, stages);
  }

  /** So under the brake a pipeline of one new job commits wherever that job by itself is refused, for no other
      reason. */
  lemma PipelineUnderBrake(w: World, e: EngagementId, j: JobId, spec: JobSpec)
    requires e in w.engagements && CaseThere(w, e, spec)
    requires j !in w.history.jobs && j !in w.jobs && !spec.contractRequired
    ensures CreatePipeline(w, e, [(j, spec)]).Success?
    ensures CreateJob(w, e, j, spec, None) == Failure(StopWorkActive) <==> w.engagements[e].authority.stopWork
  {
    PipelineExactly(w, e, [(j, spec)]);
    CreationExactly(w, e, j, spec, None);
    hide CreatePipeline;
  }

  // ----- Updating -----

  /** Without an execution a job may be finished or failed, a running one put back, and a status that is not running
      repeated; with one, the only update is to ask a running job to fail. */
  predicate MayUpdate(w: World, j: JobId, status: Status)
    requires j in w.jobs
  {
    var now := w.jobs[j].status;
    if j in w.executions then status == Failed && now == Running
    else
      || (status == now && now != Running)
      || (now in {Pending, Running} && status in {Done, Failed})
      || (now == Running && status == Pending)
  }

  lemma UpdateExactly(w: World, j: JobId, status: Status, now: Instant)
    ensures PatchJob(w, j, status, now).Success? <==> Known(w, j) && MayUpdate(w, j, status)
    ensures PatchJob(w, j, status, now).Success? && j !in w.executions ==>
              var job, v := w.jobs[j], PatchJob(w, j, status, now).value.world;
              && v == w.(jobs := v.jobs)
              && v.jobs == w.jobs[j := job.(status := status, completedAt :=
                   if status in {Done, Failed} && status != job.status then Some(now) else job.completedAt)]
    ensures PatchJob(w, j, status, now).Success? && j in w.executions ==>
              var x, v := w.executions[j], PatchJob(w, j, status, now).value.world;
              v == w.(executions := w.executions[j := if x.phase == Active then x.(phase := CancelRequested) else x])
  {
    if j in w.jobs && status == w.jobs[j].status { assert w.jobs == w.jobs[j := w.jobs[j]]; }
  }

  // ----- Finishing and uploading without a contract -----

  /** A legacy finish is heard exactly from the holder of an execution outside managed permission, and after the end
      only if it says the same again. */
  lemma LegacyFinishHeard(w: World, j: JobId, holder: Holder, outcome: FinishOutcome, system: Instant, now: Instant)
    ensures LegacyFinish(w, j, holder, outcome, system, now).Success? <==>
            && Known(w, j) && j in w.executions && w.executions[j].holder == holder
            && !w.jobs[j].contractRequired && w.jobs[j].approval.None?
            && (w.executions[j].phase.Ended? ==> outcome == Definite(w.executions[j].phase.outcome))
  {
  }

  /** Success needs the execution active, inside its lease and unbraked, or is answered with a conflict and a request
      to cancel; a failure or a cancellation always ends it; a finish that does not know leaves it uncertain. */
  lemma LegacyFinishExactly(w: World, j: JobId, holder: Holder, outcome: FinishOutcome, system: Instant, now: Instant)
    requires LegacyFinish(w, j, holder, outcome, system, now).Success?
    requires j in w.executions && !w.executions[j].phase.Ended?
    ensures Known(w, j)
    ensures var x, c := w.executions[j], LegacyFinish(w, j, holder, outcome, system, now).value;
            var inTime := x.phase == Active && system < x.expiresAt
                          && !w.engagements[w.jobs[j].engagement].authority.stopWork;
            && j in c.world.executions && j in c.world.jobs
            && var y, job := c.world.executions[j], c.world.jobs[j];
               if outcome.Indefinite? then
                 y == x.(phase := Uncertain) && job == w.jobs[j] && c.reply == State(Uncertain)
               else if outcome.outcome == Completed && !inTime then
                 y == x.(phase := CancelRequested) && job == w.jobs[j] && c.reply == Conflict
               else
                 && y == x.(phase := Ended(outcome.outcome), reserved := false) && c.reply == State(y.phase)
                 && job == w.jobs[j].(completedAt := Some(now),
                                      status := if outcome.outcome == Completed then Done else Failed)
  {
  }

  /** The result is about the case frozen at the claim, or, before any claim, the stored one; what is left out of it
      is not compared. */
  predicate AboutCase(w: World, j: JobId, u: Upload)
    requires Known(w, j)
  {
    var job, cases := w.jobs[j], w.engagements[w.jobs[j].engagement].cases;
    if job.snapshot.Some? then
      && (u.caseHash.Some? ==> u.caseHash == Some(job.snapshot.value.hash))
      && (u.ref.Some? ==> u.ref == Some(job.snapshot.value.ref))
    else
      job.testCase.Some? && job.testCase.value in cases && u.ref.Some? ==>
        u.ref == Some(cases[job.testCase.value].ref)
  }

  /** A legacy upload is accepted exactly for a gate job outside managed permission, the first time if it is about
      its case, and from then on if it is the stored payload, with or without assessments. */
  lemma UploadExactly(w: World, j: JobId, u: Upload)
    ensures UploadResult(w, j, u).Success? <==>
            && Known(w, j) && w.jobs[j].tool == Gate && !w.jobs[j].contractRequired && w.jobs[j].approval.None?
            && if j in w.receipts then w.receipts[j] in {u.payload.full, u.payload.legacy} else AboutCase(w, j, u)
    ensures UploadResult(w, j, u).Success? ==>
              UploadResult(w, j, u) ==
              if j in w.receipts then Committed(w, Stored(true))
              else Committed(w.(receipts := w.receipts[j := u.payload.full],
                                history := w.history.(evidence := w.history.evidence + multiset{j})), Stored(false))
  {
  }

  /** A legacy renewal is heard exactly from the holder of an execution outside managed permission. */
  lemma LegacyRefreshHeard(w: World, j: JobId, holder: Holder, system: Instant, renewal: Instant)
    ensures LegacyRefresh(w, j, holder, system, renewal).Success? <==>
            && Known(w, j) && j in w.executions && w.executions[j].holder == holder
            && !w.jobs[j].contractRequired && w.jobs[j].approval.None?
  {
  }

  // ----- Limits, deletion and the brake -----

  /** Nothing of the engagement runs or holds capacity. */
  predicate AtRest(w: World, e: EngagementId) {
    && (forall j :: j in w.jobs && w.jobs[j].engagement == e ==> w.jobs[j].status != Running)
    && (forall j :: j in w.jobs && w.jobs[j].engagement == e && j in w.executions ==> !w.executions[j].reserved)
  }

  lemma RestExactly(w: World, e: EngagementId)
    ensures Idle(w, e) <==> AtRest(w, e)
  {
    if AtRest(w, e) {
      forall j ensures j !in RunningJobs(w, e) && j !in ReservedJobs(w, e) {}
      assert RunningJobs(w, e) == {} && ReservedJobs(w, e) == {};
    }
    forall j | j in w.jobs && w.jobs[j].engagement == e && Idle(w, e)
      ensures w.jobs[j].status != Running && !(j in w.executions && w.executions[j].reserved)
    {
      assert j !in RunningJobs(w, e) && j !in ReservedJobs(w, e);
    }
  }

  /** The engagement with these limits, its revision moved exactly if they are others. */
  predicate Limited(g: Engagement, h: Engagement, limits: Limits) {
    && h == g.(authority := g.authority.(limits := limits), revision := h.revision)
    && h.revision == if limits == g.authority.limits then g.revision else g.revision + 1
  }

  predicate OnlyEngagement(w: World, v: World, e: EngagementId) {
    e in v.engagements && v == w.(engagements := w.engagements[e := v.engagements[e]])
  }

  /** A limit is set exactly when nothing of the engagement runs and what was spent stays within it. */
  lemma LimitsExactly(w: World, e: EngagementId, limit: Option<Limit>)
    ensures ConfigureConcurrency(w, e, limit).Success? <==> e in w.engagements && AtRest(w, e)
    ensures ConfigureTargets(w, e, limit).Success? <==>
            && e in w.engagements && AtRest(w, e)
            && w.engagements[e].targetsSpent <= (if limit.Some? then limit.value else 0)
    ensures ConfigureDuration(w, e, limit).Success? <==>
            && e in w.engagements && AtRest(w, e)
            && w.engagements[e].durationAllocated <= (if limit.Some? then limit.value else 0)
  {
    RestExactly(w, e);
    hide Idle, AtRest, WithLimits;
  }

  /** And then it is the limit asked for, and nothing else moves but the revision. */
  lemma LimitsAreSet(w: World, e: EngagementId, limit: Option<Limit>)
    requires e in w.engagements
    ensures var g := w.engagements[e]; var was := g.authority.limits;
            && (ConfigureConcurrency(w, e, limit).Success? ==>
                  var v := ConfigureConcurrency(w, e, limit).value.world;
                  OnlyEngagement(w, v, e) && Limited(g, v.engagements[e], was.(concurrency := limit)))
            && (ConfigureTargets(w, e, limit).Success? ==>
                  var v := ConfigureTargets(w, e, limit).value.world;
                  OnlyEngagement(w, v, e) && Limited(g, v.engagements[e], was.(targets := limit)))
            && (ConfigureDuration(w, e, limit).Success? ==>
                  var v := ConfigureDuration(w, e, limit).value.world;
                  OnlyEngagement(w, v, e) && Limited(g, v.engagements[e], was.(duration := limit)))
  {
    hide Idle;
  }

  /** An engagement is deleted exactly when nothing was ever spent in it, nothing holds capacity, and, if its capacity
      is limited, nothing runs; its jobs go with it, and no others. */
  lemma EngagementDeletionExactly(w: World, e: EngagementId)
    ensures DeleteEngagement(w, e).Success? <==>
            && e in w.engagements && w.engagements[e].targetsSpent == 0 && w.engagements[e].durationAllocated == 0
            && (w.engagements[e].authority.limits.concurrency.Some? ==> AtRest(w, e)) && ReservedJobs(w, e) == {}
    ensures DeleteEngagement(w, e).Success? ==>
              var v := DeleteEngagement(w, e).value.world;
              && v.engagements.Keys == w.engagements.Keys - {e}
              && (forall j :: j in v.jobs <==> j in w.jobs && w.jobs[j].engagement != e)
              && (forall j :: j in v.jobs ==> v.jobs[j] == w.jobs[j])
  {
    RestExactly(w, e);
    hide AtRest, ReservedJobs, RunningJobs;
  }

  /** Pulling the brake, and releasing it, sets it; moves the revision exactly if that is a change; and pulling it asks
      the active executions of that engagement, and no others, to cancel. */
  lemma BrakeExactly(w: World, e: EngagementId)
    ensures EngageStopWork(w, e).Success? <==> e in w.engagements
    ensures ReleaseStopWork(w, e).Success? <==> e in w.engagements
    ensures e in w.engagements ==>
              var g, pulled, released := w.engagements[e], EngageStopWork(w, e).value.world,
                                         ReleaseStopWork(w, e).value.world;
              && OnlyEngagement(w, pulled.(executions := w.executions), e) && OnlyEngagement(w, released, e)
              && pulled.engagements[e] == g.(authority := g.authority.(stopWork := true),
                                             revision := if g.authority.stopWork then g.revision else g.revision + 1)
              && released.engagements[e] == g.(authority := g.authority.(stopWork := false),
                                               revision := if g.authority.stopWork then g.revision + 1 else g.revision)
              && pulled.executions.Keys == w.executions.Keys
              && forall j :: j in w.executions ==>
                   pulled.executions[j] ==
                   if j in w.jobs && w.jobs[j].engagement == e && w.executions[j].phase == Active
                   then w.executions[j].(phase := CancelRequested) else w.executions[j]
  {
  }

  /** A new engagement is one whose identifier was never used: its owner, kind and status are as given, nothing is
      granted, in scope, limited, stored, spent or under the brake. */
  lemma EngagementCreationExactly(w: World, e: EngagementId, owner: UserId, kind: string, status: string)
    ensures CreateEngagement(w, e, owner, kind, status).Success? <==>
            e !in w.history.engagements && e !in w.engagements
    ensures CreateEngagement(w, e, owner, kind, status).Success? ==>
              var v := CreateEngagement(w, e, owner, kind, status).value.world;
              && v == w.(engagements := v.engagements, history := w.history.(engagements :=
                      w.history.engagements + {e}))
              && v.engagements.Keys == w.engagements.Keys + {e}
              && (forall f :: f in w.engagements ==> v.engagements[f] == w.engagements[f])
              && var g := v.engagements[e];
                 && g.owner == owner && g.authority.kind == kind && g.authority.status == status
                 && !g.authority.stopWork && g.authority.scope == map[] && g.authority.grants == map[]
                 && g.authority.limits == Limits(None, None, None) && g.cases == map[] && g.revision == 0
                 && g.targetsSpent == 0 && g.durationAllocated == 0
  {
  }
}
