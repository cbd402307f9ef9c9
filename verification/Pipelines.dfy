/** Pipelines: jobs waiting on jobs, and what polling makes of them. */
module Pipelines {
  import opened Wrappers
  import opened Records
  import opened JobSteps
  import opened ManagedSteps
  import opened Protocol
  import opened Preservation
  import opened Evolution
  import opened Runs
  import opened Footprints
  import opened Guarantees

  // ----- Dependencies never form a cycle -----

  /** The parent, if any, was made earlier and belongs to the same engagement. */
  predicate ParentBefore(w: World, j: JobId, rank: map<JobId, nat>)
    requires j in w.jobs
  {
    var p := w.jobs[j].dependsOn;
    p.Some? ==> j in rank && p.value in rank && rank[p.value] < rank[j]
                && (p.value in w.jobs ==> w.jobs[p.value].engagement == w.jobs[j].engagement)
  }

  /** Jobs ranked by when they were made, the deleted ones included. */
  ghost predicate Ranked(w: World, rank: map<JobId, nat>) {
    && rank.Keys == w.history.jobs
    && forall j {:trigger ParentBefore(w, j, rank)} :: j in w.jobs ==> ParentBefore(w, j, rank)
  }

  ghost predicate Ordered(w: World) {
    exists rank :: Ranked(w, rank)
  }

  /** Some number above every rank. */
  lemma {:induction false} HigherThanAll(rank: map<JobId, nat>, ids: set<JobId>) returns (n: nat)
    requires ids <= rank.Keys
    ensures forall j :: j in ids ==> rank[j] < n
    decreases |ids|
  {
    if exists j :: j in ids {
      var j :| j in ids;
      n := HigherThanAll(rank, ids - {j});
      n := if rank[j] < n then n else rank[j] + 1;
    } else {
      n := 0;
    }
  }

  lemma AddRanked(w: World, e: EngagementId, j: JobId, spec: JobSpec, parent: Option<JobId>)
    requires Ordered(w) && RowsOk(w) && j !in w.history.jobs && j !in w.jobs
    requires parent.Some? ==> parent.value in w.jobs && w.jobs[parent.value].engagement == e
    ensures Ordered(Added(w, e, j, spec, parent))
  {
    var rank :| Ranked(w, rank);
    var n := HigherThanAll(rank, rank.Keys);
    var v, more := Added(w, e, j, spec, parent), rank[j := n];
    assert j !in rank;
    forall k | k in v.jobs ensures ParentBefore(v, k, more) {
      if k != j {
        assert ParentBefore(w, k, rank);
      } else if parent.Some? {
        assert JobOk(w, parent.value);
      }
    }
    assert Ranked(v, more);
  }

  lemma {:induction false} ChainRanked(w: World, e: EngagementId, stages: seq<(JobId, JobSpec)>)
    requires Inv(w) && Ordered(w) && e in w.engagements
    requires forall i :: 0 <= i < |stages| ==> stages[i].0 !in w.history.jobs && stages[i].0 !in w.jobs
    requires forall i, k :: 0 <= i < k < |stages| ==> stages[i].0 != stages[k].0
    ensures Ordered(Chained(w, e, stages))
    ensures stages != [] ==> var last, v := stages[|stages| - 1].0, Chained(w, e, stages);
                             last in v.jobs && v.jobs[last].engagement == e
  {
    hide Inv, Ordered;
    if stages != [] {
      var front, last := stages[..|stages| - 1], stages[|stages| - 1];
      ChainRanked(w, e, front);
      ChainKeeps(w, e, front);
      assert NotAStage(front, last.0);
      var u := Chained(w, e, front);
      assert RowsOk(u) by { InvRows(u); }
      AddRanked(u, e, last.0, last.1, if front == [] then None else Some(front[|front| - 1].0));
    }
  }

  lemma InvRows(w: World)
    requires Inv(w)
    ensures RowsOk(w)
  {
  }

  // ----- Every other event leaves the ranking alone -----

  lemma NoNewRanked(w: World, v: World)
    requires Ordered(w) && Later(w, v) && v.jobs.Keys <= w.jobs.Keys && v.history.jobs == w.history.jobs
    ensures Ordered(v)
  {
    var rank :| Ranked(w, rank);
    forall j | j in v.jobs ensures ParentBefore(v, j, rank) {
      assert ParentBefore(w, j, rank) && JobLater(w, v, j);
      if w.jobs[j].dependsOn.Some? { assert JobLater(w, v, w.jobs[j].dependsOn.value); }
    }
    assert Ranked(v, rank);
  }

  lemma CreationRanked(w: World, ev: Event)
    requires Inv(w) && Ordered(w) && MakesJobs(ev) && Transact(w, ev).Success?
    ensures Ordered(Transact(w, ev).value.world)
  {
    hide Ordered, Inv, RowsOk, Chained, Added, CaseResolved;
    hide CreateEngagement, EditEngagement, ConfigureConcurrency, ConfigureTargets, ConfigureDuration;
    hide DeleteEngagement, EngageStopWork, ReleaseStopWork, Poll, PatchJob, DeleteJob;
    hide LegacyClaim, LegacyRefresh, LegacyFinish, UploadResult;
    hide Register, Revoke, ManagedClaim, CheckLive, Renew, Consume, Submit, Finish, ReportStop;
    InvRows(w);
    match ev
    case EvCreateJob(e, j, spec, parent) => AddRanked(w, e, j, spec, parent);
    case EvCreatePipeline(e, stages) => ChainRanked(w, e, stages);
    case _ =>
  }

  lemma NextRanked(w: World, ev: Event)
    requires Inv(w) && Ordered(w)
    ensures Ordered(Next(w, ev))
  {
    hide Inv, Ordered, Transact, Later;
    NextLater(w, ev);
    if Transact(w, ev).Failure? {
    } else if MakesJobs(ev) {
      CreationRanked(w, ev);
    } else {
      NoNewJobs(w, ev);
      NoNewRanked(w, Next(w, ev));
    }
  }

  lemma {:induction false} RunRanked(w: World, evs: seq<Event>)
    requires Inv(w) && Ordered(w)
    ensures Ordered(Run(w, evs))
  {
    hide Inv, Ordered, Next;
    if evs != [] {
      var front := evs[..|evs| - 1];
      RunRanked(w, front);
      RunInvariant(w, front);
      NextRanked(Run(w, front), evs[|evs| - 1]);
    }
  }

  lemma EmptyRanked()
    ensures Ordered(EMPTY)
  {
    assert Ranked(EMPTY, map[]);
  }

  /** In every reachable store the jobs can be ranked so that each waits only on an earlier one, of its
      own engagement. */
  lemma ReachableRanked(w: World)
    requires Reachable(w)
    ensures Ordered(w)
  {
    hide Ordered;
    EmptyOk();
    EmptyRanked();
    var evs :| w == Run(EMPTY, evs);
    RunRanked(EMPTY, evs);
  }

  /** The job n steps up the chain of parents. */
  function Ancestor(w: World, j: JobId, n: nat): Option<JobId>
    decreases n
  {
    if n == 0 then Some(j)
    else if j in w.jobs && w.jobs[j].dependsOn.Some? then Ancestor(w, w.jobs[j].dependsOn.value, n - 1)
    else None
  }

  lemma {:induction false} AncestorEarlier(w: World, rank: map<JobId, nat>, j: JobId, n: nat)
    requires Ranked(w, rank) && j in rank && n > 0 && Ancestor(w, j, n).Some?
    ensures Ancestor(w, j, n).value in rank && rank[Ancestor(w, j, n).value] < rank[j]
    decreases n
  {
    assert ParentBefore(w, j, rank);
    if n > 1 { AncestorEarlier(w, rank, w.jobs[j].dependsOn.value, n - 1); }
  }

  /** No job ever waits on itself, however long the chain, in any reachable store. */
  lemma DependenciesAcyclic(w: World, j: JobId, n: nat)
    requires Reachable(w) && j in w.jobs && n > 0
    ensures Ancestor(w, j, n) != Some(j)
  {
    ReachableRanked(w);
    var rank :| Ranked(w, rank);
    assert ParentBefore(w, j, rank);
    if Ancestor(w, j, n).Some? { AncestorEarlier(w, rank, j, n); }
  }

  // ----- What a poll achieves -----

  function PendingJobs(w: World, visible: set<EngagementId>): set<JobId> {
    set j | j in w.jobs && w.jobs[j].status == Pending && w.jobs[j].engagement in visible
  }

  /** The case a gate job was made for is still stored in its engagement; other jobs need none. */
  predicate CaseStored(w: World, job: Job) {
    job.tool == Gate ==>
      && job.engagement in w.engagements && job.testCase.Some?
      && job.testCase.value in w.engagements[job.engagement].cases
  }

  /** A poll sorts every visible pending job by its parent's stored status: offered when there is none to wait for,
      or it is done, and its case is still there; held when the parent is pending or running; failed when the
      parent failed or is gone, or the case is. Of a job it fails it sets the status and the time, and it leaves
      every other job as it was. */
  lemma PollSortsJobs(w: World, visible: set<EngagementId>, now: Instant, j: JobId)
    requires j in w.jobs
    ensures var job, v := w.jobs[j], Poll(w, visible, now);
            var parent := if job.dependsOn.Some? && job.dependsOn.value in w.jobs
                          then Some(w.jobs[job.dependsOn.value].status) else None;
            var free := job.dependsOn.None? || parent == Some(Done);
            var asked := job.status == Pending && job.engagement in visible;
            && (PollOffers(w, visible, j) <==> asked && free && CaseStored(w, job))
            && (PollFails(w, visible, j) <==>
                asked && ((free && !CaseStored(w, job))
                          || (job.dependsOn.Some? && (parent.None? || parent == Some(Failed)))))
            && (asked && !PollOffers(w, visible, j) && !PollFails(w, visible, j) <==>
                asked && (parent == Some(Pending) || parent == Some(Running)))
            && !(PollOffers(w, visible, j) && PollFails(w, visible, j))
            && v == w.(jobs := v.jobs) && v.jobs.Keys == w.jobs.Keys
            && v.jobs[j] == if PollFails(w, visible, j) then job.(status := Failed, completedAt := Some(now)) else job
  {
  }

  function FailingJobs(w: World, visible: set<EngagementId>): set<JobId> {
    set j | j in w.jobs && PollFails(w, visible, j)
  }

  /** A poll removes exactly the failing jobs from the pending ones: one that fails any strictly lowers
      their number, and one that fails none changes nothing. */
  lemma PollProgress(w: World, visible: set<EngagementId>, now: Instant)
    ensures var v := Poll(w, visible, now);
            && PendingJobs(v, visible) == PendingJobs(w, visible) - FailingJobs(w, visible)
            && |PendingJobs(v, visible)| == |PendingJobs(w, visible)| - |FailingJobs(w, visible)|
            && (FailingJobs(w, visible) == {} ==> v == w)
  {
    var v := Poll(w, visible, now);
    assert FailingJobs(w, visible) <= PendingJobs(w, visible);
    assert PendingJobs(v, visible) == PendingJobs(w, visible) - FailingJobs(w, visible);
    if FailingJobs(w, visible) == {} {
      forall j | j in w.jobs ensures !PollFails(w, visible, j) { assert j !in FailingJobs(w, visible); }
      assert v.jobs == w.jobs;
    }
  }

  /** k steps up from j, through visible pending jobs, something failed or no longer exists. */
  predicate Doomed(w: World, visible: set<EngagementId>, j: JobId, k: nat)
    decreases k
  {
    if k == 0 then j !in w.jobs || w.jobs[j].status == Failed
    else j in w.jobs && w.jobs[j].status == Pending && w.jobs[j].engagement in visible
         && w.jobs[j].dependsOn.Some? && Doomed(w, visible, w.jobs[j].dependsOn.value, k - 1)
  }

  function Polls(w: World, visible: set<EngagementId>, times: seq<Instant>): World
    decreases |times|
  {
    if times == [] then w else Polls(Poll(w, visible, times[0]), visible, times[1..])
  }

  lemma {:induction false} OnePollCloser(w: World, visible: set<EngagementId>, now: Instant, j: JobId, k: nat)
    requires Doomed(w, visible, j, k)
    ensures Doomed(Poll(w, visible, now), visible, j, if k == 0 then 0 else k - 1)
    decreases k
  {
    if k > 1 {
      OnePollCloser(w, visible, now, w.jobs[j].dependsOn.value, k - 1);
    }
  }

  /** A failure k steps up a pipeline reaches the job within k polls. */
  lemma {:induction false} FailureReaches(w: World, visible: set<EngagementId>, times: seq<Instant>, j: JobId, k: nat)
    requires Doomed(w, visible, j, k) && k <= |times|
    ensures Doomed(Polls(w, visible, times), visible, j, 0)
    decreases |times|
  {
    if times != [] {
      OnePollCloser(w, visible, times[0], j, k);
      FailureReaches(Poll(w, visible, times[0]), visible, times[1..], j, if k == 0 then 0 else k - 1);
    }
  }

  /** j waits, through n pending parents, on a job that is running or offered to the runner. */
  predicate WaitsOn(w: World, visible: set<EngagementId>, j: JobId, n: nat)
    decreases n
  {
    j in w.jobs
    && if n == 0 then w.jobs[j].status == Running || PollOffers(w, visible, j)
       else
         && w.jobs[j].status == Pending && w.jobs[j].dependsOn.Some?
         && WaitsOn(w, visible, w.jobs[j].dependsOn.value, n - 1)
  }

  lemma {:induction false} HeldWaits(w: World, visible: set<EngagementId>, rank: map<JobId, nat>, j: JobId)
    returns (n: nat)
    requires Ranked(w, rank) && j in PendingJobs(w, visible) && FailingJobs(w, visible) == {}
             && !PollOffers(w, visible, j)
    ensures n > 0 && WaitsOn(w, visible, j, n)
    decreases if j in rank then rank[j] else 0
  {
    assert j !in FailingJobs(w, visible) && ParentBefore(w, j, rank);
    var p := w.jobs[j].dependsOn.value;
    if w.jobs[p].status == Running || PollOffers(w, visible, p) {
      assert WaitsOn(w, visible, p, 0);
      n := 1;
    } else {
      var m := HeldWaits(w, visible, rank, p);
      n := m + 1;
    }
  }

  /** Once polling has nothing left to fail, every job it holds back waits, through a finite chain of
      pending jobs, on one that is running or on offer: nothing hangs for ever by itself. */
  lemma HeldJobsWaitOnLiveOnes(w: World, visible: set<EngagementId>, j: JobId)
    requires Reachable(w) && j in PendingJobs(w, visible) && FailingJobs(w, visible) == {} && !PollOffers(w, visible, j)
    ensures exists n: nat :: n > 0 && WaitsOn(w, visible, j, n)
  {
    ReachableRanked(w);
    hide Reachable;
    var rank :| Ranked(w, rank);
    var n := HeldWaits(w, visible, rank, j);
  }
}
