/** Authorization coverage: which operation each case reviews and each executed run exercised. */
module Coverage {
  import opened Wrappers
  import opened Text

  // ----- Routes -----

  datatype Shape = Uuid | Integer | Opaque | Literal

  /** How a path segment is recognised. */
  type Classifier = string -> Shape

  function Placeholder(s: Shape, segment: string): string {
    match s case Uuid => "{uuid}" case Integer => "{id}" case Opaque => "{opaque_id}" case Literal => segment
  }

  function Templated(classify: Classifier, segments: seq<string>): seq<string> {
    seq(|segments|, i requires 0 <= i < |segments| => Placeholder(classify(segments[i]), segments[i]))
  }

  /** Replace identifier-shaped segments, keep the rest of the route. */
  function InferTemplate(classify: Classifier, path: string): string {
    var result := Join(Templated(classify, Split(if path == "" then "/" else path, '/')), '/');
    if StartsWith(result, "/") then result else "/" + result
  }

  predicate IsPlaceholder(segment: string) {
    |segment| >= 3 && segment[0] == '{' && segment[|segment| - 1] == '}' && '\n' !in segment
  }

  predicate SegmentMatches(a: string, b: string) {
    a == b || (b != "" && IsPlaceholder(a))
  }

  /** A placeholder stands for exactly one non-empty segment; everything else must be equal. */
  predicate TemplateMatches(template: string, path: string) {
    template == path
    || var left, right := Split(template, '/'), Split(path, '/');
       |left| == |right| && forall i :: 0 <= i < |left| ==> SegmentMatches(left[i], right[i])
  }

  lemma {:induction false} SplitHasNone(s: string, c: char)
    ensures forall i :: 0 <= i < |Split(s, c)| ==> c !in Split(s, c)[i]
  {
    if c in s { SplitHasNone(s[IndexOf(s, c) + 1..], c); }
  }

  /** Joining pieces without the separator and splitting again gives the pieces. */
  lemma {:induction false} SplitJoined(parts: seq<string>, c: char)
    requires |parts| >= 1 && forall i :: 0 <= i < |parts| ==> c !in parts[i]
    ensures Split(Join(parts, c), c) == parts
  {
    if |parts| > 1 {
      hide Split, Join;
      SplitJoined(parts[1..], c);
      SplitConcat(parts[0], Join(parts[1..], c), c);
      SplitWithout(parts[0], c);
      JoinFirst(parts[0], parts[1..], c);
      assert parts == [parts[0]] + parts[1..];
    }
  }

  /** Every path is matched by the template inferred from it, provided identifiers are never empty segments. */
  lemma OwnTemplateMatches(classify: Classifier, path: string)
    requires StartsWith(path, "/") && classify("") == Literal
    ensures TemplateMatches(InferTemplate(classify, path), path)
  {
    var segments := Split(path, '/');
    var parts := Templated(classify, segments);
    SplitHasNone(path, '/');
    forall i | 0 <= i < |parts| ensures '/' !in parts[i] && SegmentMatches(parts[i], segments[i]) {
      PlaceholderMatches(classify(segments[i]), segments[i]);
    }
    SplitJoined(parts, '/');
    LeadingSlash(path, parts, segments);
    hide Split, Join, SegmentMatches;
  }

  lemma PlaceholderMatches(shape: Shape, segment: string)
    requires '/' !in segment && (segment == "" ==> shape == Literal)
    ensures '/' !in Placeholder(shape, segment) && SegmentMatches(Placeholder(shape, segment), segment)
  {
  }

  lemma LeadingSlash(path: string, parts: seq<string>, segments: seq<string>)
    requires StartsWith(path, "/") && segments == Split(path, '/') && |parts| == |segments|
             && (segments[0] == "" ==> parts[0] == "")
    ensures StartsWith(Join(parts, '/'), "/")
  {
    assert path[0] == '/';
    assert IndexOf(path, '/') == 0;
    assert segments[0] == "" && |segments| >= 2;
  }

  // ----- Inventory, cases and runs -----

  datatype Request = Request(verb: string, scheme: string, host: string, port: int, path: string)

  datatype Endpoint = Endpoint(id: int, verb: string, scheme: string, host: string, port: Option<int>, template: string)

  function EffectivePort(scheme: string, port: Option<int>): int {
    if port.Some? && port.value != 0 then port.value else if scheme == "https" then 443 else 80
  }

  predicate OperationMatches(e: Endpoint, r: Request) {
    var scheme := if e.scheme == "" then "https" else e.scheme;
    && e.verb == r.verb && scheme == r.scheme && Lower(e.host) == r.host
    && EffectivePort(scheme, e.port) == r.port && TemplateMatches(e.template, r.path)
  }

  /** A stored case: its digest (absent if it has no usable spec), whether it reviews any allow or deny,
      its request if that can be read, and the identities it declares. */
  datatype Case = Case(id: int, hash: Option<int>, reviews: bool, request: Option<Request>, identities: set<string>)

  datatype Assessed = Conclusive | Partial | Undetermined

  datatype Outcome = Evaluated | InconclusiveOutcome | Missing | Skipped | OtherOutcome

  /** An executed job: what its frozen snapshot says it exercised, what it concluded, and the outcome of
      each identity it reported on. */
  datatype Run = Run(job: int, caseId: int, request: Option<Request>, snapshot: Option<int>, verified: bool,
                     status: Assessed, outcomes: map<string, Outcome>, finished: int, created: int)

  datatype FindingStatus = New | Reviewed | Promoted | FalsePositive | OtherStatus

  /** One candidate finding of a job. */
  datatype Finding = Finding(job: int, status: FindingStatus)

  predicate Exercises(run: Run, e: Endpoint) {
    run.request.Some? && OperationMatches(e, run.request.value)
  }

  predicate Covers(c: Case, e: Endpoint) {
    c.reviews && c.request.Some? && OperationMatches(e, c.request.value)
  }

  /** The run judged the very spec the case has now. */
  predicate IsCurrent(run: Run, c: Case) {
    run.caseId == c.id && c.hash.Some? && run.verified && run.snapshot == c.hash
  }

  /** The path is the template, or has as many segments, each equal or one that is not empty in place of a
      placeholder. */
  predicate Fits(path: string, template: string) {
    var left, right := Split(template, '/'), Split(path, '/');
    || path == template
    || (|right| == |left|
        && forall i :: 0 <= i < |right| ==>
             right[i] == left[i] || (right[i] != "" && |left[i]| >= 3 && '\n' !in left[i]
                                     && left[i][0] == '{' && left[i][|left[i]| - 1] == '}'))
  }

  /** One request of one operation: the same method, scheme, host and port, spelled out or implied, and a path that
      fits. */
  predicate Hits(r: Request, e: Endpoint) {
    var scheme := if e.scheme == "" then "https" else e.scheme;
    var port := if e.port.Some? && e.port != Some(0) then e.port.value else if scheme == "https" then 443 else 80;
    r.verb == e.verb && r.scheme == scheme && r.host == Lower(e.host) && r.port == port && Fits(r.path, e.template)
  }

  /** A run or a case counts for an operation exactly when its own request is one of it, and a case only if it
      reviews something: so a run of one method never counts for an operation of another. */
  lemma CountsExactly(run: Run, c: Case, e: Endpoint)
    ensures Exercises(run, e) <==> run.request.Some? && Hits(run.request.value, e)
    ensures Covers(c, e) <==> c.reviews && c.request.Some? && Hits(c.request.value, e)
  {
    if run.request.Some? { HitsExactly(e, run.request.value); }
    if c.request.Some? { HitsExactly(e, c.request.value); }
    hide OperationMatches, Hits;
  }

  lemma FitsExactly(path: string, template: string)
    ensures TemplateMatches(template, path) <==> Fits(path, template)
  {
    hide Split;
  }

  lemma HitsExactly(e: Endpoint, r: Request)
    ensures OperationMatches(e, r) <==> Hits(r, e)
  {
    FitsExactly(r.path, e.template);
    hide TemplateMatches, Fits, Lower;
    assert OperationMatches(e, r) ==> TemplateMatches(e.template, r.path);
  }

  /** What one request exercises is one method on one origin, whatever the inventory lists. */
  lemma OneOrigin(run: Run, a: Endpoint, b: Endpoint)
    requires Exercises(run, a) && Exercises(run, b)
    ensures a.verb == b.verb && Lower(a.host) == Lower(b.host)
    ensures (a.scheme == "" || a.scheme == "https") == (b.scheme == "" || b.scheme == "https")
  {
    CountsExactly(run, Case(0, None, false, None, {}), a);
    CountsExactly(run, Case(0, None, false, None, {}), b);
    hide Exercises, Split, Lower;
  }

  // ----- Selections -----

  function Attributed(e: Endpoint, runs: seq<Run>): seq<Run> {
    if runs == [] then []
    else Attributed(e, runs[..|runs| - 1]) + if Exercises(runs[|runs| - 1], e) then [runs[|runs| - 1]] else []
  }

  function Matched(e: Endpoint, cases: seq<Case>): seq<Case> {
    if cases == [] then []
    else Matched(e, cases[..|cases| - 1]) + if Covers(cases[|cases| - 1], e) then [cases[|cases| - 1]] else []
  }

  /** Finished later, then created later, then the greater id. */
  predicate NotLater(a: Run, b: Run) {
    a.finished < b.finished
    || (a.finished == b.finished && (a.created < b.created || (a.created == b.created && a.job <= b.job)))
  }

  function LatestCurrent(c: Case, runs: seq<Run>): Option<Run> {
    if runs == [] then None
    else
      var best, last := LatestCurrent(c, runs[..|runs| - 1]), runs[|runs| - 1];
      if !IsCurrent(last, c) then best
      else if best.None? || !NotLater(last, best.value) then Some(last) else best
  }

  /** Some run of this case, but none of them judged its present spec, adds one each to the count. */
  function StaleRuns(c: Case, runs: seq<Run>): nat {
    if runs == [] then 0
    else
      var last := runs[|runs| - 1];
      StaleRuns(c, runs[..|runs| - 1]) + if last.caseId == c.id && !IsCurrent(last, c) then 1 else 0
  }

  function StaleOf(matched: seq<Case>, runs: seq<Run>): nat {
    if matched == [] then 0 else StaleOf(matched[..|matched| - 1], runs) + StaleRuns(matched[|matched| - 1], runs)
  }

  /** The latest current run of each matching case that has one. */
  function CurrentJobs(matched: seq<Case>, runs: seq<Run>): seq<Run> {
    if matched == [] then []
    else
      var latest := LatestCurrent(matched[|matched| - 1], runs);
      CurrentJobs(matched[..|matched| - 1], runs) + if latest.Some? then [latest.value] else []
  }

  predicate Flags(f: Finding) {
    f.status == New || f.status == Reviewed || f.status == Promoted
  }

  function OpenOf(job: int, findings: seq<Finding>): nat {
    if findings == [] then 0
    else
      var last := findings[|findings| - 1];
      OpenOf(job, findings[..|findings| - 1]) + if last.job == job && Flags(last) then 1 else 0
  }

  function OpenIn(runs: seq<Run>, findings: seq<Finding>): nat {
    if runs == [] then 0 else OpenIn(runs[..|runs| - 1], findings) + OpenOf(runs[|runs| - 1].job, findings)
  }

  // ----- The state of an operation -----

  datatype State =
    | ViolationCandidate | Inconclusive | PartlyConclusive | FullyConclusive | ReviewedNotExecuted | Stale | Untested

  function StateOf(e: Endpoint, cases: seq<Case>, runs: seq<Run>, findings: seq<Finding>): State {
    var matched := Matched(e, cases);
    var current := CurrentJobs(matched, runs);
    if OpenIn(Attributed(e, runs), findings) > 0 then ViolationCandidate
    else if matched == [] then Untested
    else if current == [] then if StaleOf(matched, runs) > 0 then Stale else ReviewedNotExecuted
    else if |current| == |matched| && forall i :: 0 <= i < |current| ==> current[i].status == Conclusive
    then FullyConclusive
    else if exists i :: 0 <= i < |current| && (current[i].status == Conclusive || current[i].status == Partial)
    then PartlyConclusive
    else Inconclusive
  }

  lemma {:induction false} AttributedHas(e: Endpoint, runs: seq<Run>)
    ensures forall r :: r in Attributed(e, runs) <==> r in runs && Exercises(r, e)
  {
    hide OperationMatches;
    if runs != [] {
      AttributedHas(e, runs[..|runs| - 1]);
      assert runs == runs[..|runs| - 1] + [runs[|runs| - 1]];
    }
  }

  lemma {:induction false} MatchedHas(e: Endpoint, cases: seq<Case>)
    ensures forall c :: c in Matched(e, cases) <==> c in cases && Covers(c, e)
  {
    hide OperationMatches;
    if cases != [] {
      MatchedHas(e, cases[..|cases| - 1]);
      assert cases == cases[..|cases| - 1] + [cases[|cases| - 1]];
    }
  }

  /** A run of this case whose verified snapshot is the spec the case has now. */
  predicate JudgedPresent(run: Run, c: Case) {
    run.caseId == c.id && run.verified && run.snapshot.Some? && run.snapshot == c.hash
  }

  /** By the time it finished, then the time it was created, then its identifier. */
  predicate Before(a: Run, b: Run) {
    || a.finished < b.finished
    || (a.finished == b.finished && a.created < b.created)
    || (a.finished == b.finished && a.created == b.created && a.job < b.job)
  }

  /** The latest current run judged the present spec on a verified snapshot, and no run that did comes after it. */
  lemma LatestIsLatest(c: Case, runs: seq<Run>)
    ensures var latest := LatestCurrent(c, runs);
            && (latest.None? <==> forall r :: r in runs ==> !JudgedPresent(r, c))
            && (latest.Some? ==> latest.value in runs && JudgedPresent(latest.value, c)
                                 && forall r :: r in runs && JudgedPresent(r, c) ==> !Before(latest.value, r))
  {
    LatestCurrentIsLatest(c, runs);
    forall r | r in runs ensures IsCurrent(r, c) <==> JudgedPresent(r, c) {}
    hide LatestCurrent;
  }

  lemma {:induction false} LatestCurrentIsLatest(c: Case, runs: seq<Run>)
    ensures var latest := LatestCurrent(c, runs);
            && (latest.None? <==> forall r :: r in runs ==> !IsCurrent(r, c))
            && (latest.Some? ==> latest.value in runs && IsCurrent(latest.value, c)
                                 && forall r :: r in runs && IsCurrent(r, c) ==> NotLater(r, latest.value))
  {
    if runs != [] {
      LatestCurrentIsLatest(c, runs[..|runs| - 1]);
      assert runs == runs[..|runs| - 1] + [runs[|runs| - 1]];
    }
  }

  lemma {:induction false} OpenMeansFlagged(job: int, findings: seq<Finding>)
    ensures OpenOf(job, findings) > 0 <==> exists f :: f in findings && f.job == job && Flags(f)
  {
    if findings != [] {
      OpenMeansFlagged(job, findings[..|findings| - 1]);
      assert findings == findings[..|findings| - 1] + [findings[|findings| - 1]];
    }
  }

  lemma {:induction false} OpenInMeansFlagged(runs: seq<Run>, findings: seq<Finding>)
    ensures OpenIn(runs, findings) > 0 <==> exists r, f :: r in runs && f in findings && f.job == r.job && Flags(f)
  {
    if runs != [] {
      OpenInMeansFlagged(runs[..|runs| - 1], findings);
      OpenMeansFlagged(runs[|runs| - 1].job, findings);
      assert runs == runs[..|runs| - 1] + [runs[|runs| - 1]];
    }
  }

  /** A run whose own frozen request is one of the operation has an open or promoted finding. */
  predicate Flagged(e: Endpoint, runs: seq<Run>, findings: seq<Finding>) {
    exists r, f ::
      && r in runs && r.request.Some? && Hits(r.request.value, e)
      && f in findings && f.job == r.job && f.status in {New, Reviewed, Promoted}
  }

  lemma FlaggedHits(e: Endpoint, runs: seq<Run>, findings: seq<Finding>)
    ensures OpenIn(Attributed(e, runs), findings) > 0 <==> Flagged(e, runs, findings)
  {
    AttributedHas(e, runs);
    OpenInMeansFlagged(Attributed(e, runs), findings);
    forall r | r in runs ensures Exercises(r, e) <==> r.request.Some? && Hits(r.request.value, e) {
      CountsExactly(r, Case(0, None, false, None, {}), e);
    }
    hide Attributed, OpenIn, Exercises, Hits;
  }

  /** An operation is a violation candidate exactly when some run that exercised it, by its own frozen
      request, has an open or promoted finding. The stored cases play no part, so no edit or deletion of
      a case ever hides one, or makes one. */
  lemma ViolationsIgnoreCases(e: Endpoint, cases: seq<Case>, edited: seq<Case>, runs: seq<Run>, findings: seq<Finding>)
    ensures StateOf(e, cases, runs, findings) == ViolationCandidate <==> Flagged(e, runs, findings)
    ensures StateOf(e, edited, runs, findings) == ViolationCandidate <==>
            StateOf(e, cases, runs, findings) == ViolationCandidate
  {
    FlaggedHits(e, runs, findings);
    hide Attributed, OpenIn, Hits, Matched, CurrentJobs, StaleOf, Flagged;
  }

  lemma {:induction false} CurrentJobsAre(matched: seq<Case>, runs: seq<Run>)
    ensures forall r :: r in CurrentJobs(matched, runs) <==>
                        exists c :: c in matched && LatestCurrent(c, runs) == Some(r)
  {
    hide LatestCurrent;
    if matched != [] {
      var front, last := matched[..|matched| - 1], matched[|matched| - 1];
      CurrentJobsAre(front, runs);
      assert matched == front + [last];
      assert forall c :: c in matched <==> c in front || c == last;
    }
  }

  /** Every case has a latest current run. */
  ghost predicate AllRun(matched: seq<Case>, runs: seq<Run>) {
    forall c :: c in matched ==> LatestCurrent(c, runs).Some?
  }

  lemma AllRunStep(front: seq<Case>, last: Case, runs: seq<Run>)
    ensures AllRun(front + [last], runs) <==> AllRun(front, runs) && LatestCurrent(last, runs).Some?
  {
    hide LatestCurrent;
    assert last in front + [last];
    assert forall c :: c in front + [last] <==> c in front || c == last;
  }

  /** There is one latest current run for each case, so as many as cases exactly when each has one. */
  lemma {:induction false} OneEach(matched: seq<Case>, runs: seq<Run>)
    ensures |CurrentJobs(matched, runs)| <= |matched|
    ensures |CurrentJobs(matched, runs)| == |matched| ==> AllRun(matched, runs)
    ensures AllRun(matched, runs) ==> |CurrentJobs(matched, runs)| == |matched|
  {
    hide LatestCurrent, AllRun;
    if matched == [] {
      assert AllRun(matched, runs) by { NoneToRun(runs); }
    } else {
      var front, last := matched[..|matched| - 1], matched[|matched| - 1];
      OneEach(front, runs);
      AllRunStep(front, last, runs);
      assert matched == front + [last];
    }
  }

  lemma NoneToRun(runs: seq<Run>)
    ensures AllRun([], runs)
  {
  }

  /** Some run of this case, of an older spec or on an unverified snapshot, is all there is of it. */
  predicate OnlyOld(c: Case, runs: seq<Run>) {
    exists r :: r in runs && r.caseId == c.id && !JudgedPresent(r, c)
  }

  lemma {:induction false} StaleRunsCount(c: Case, runs: seq<Run>)
    ensures StaleRuns(c, runs) > 0 <==> OnlyOld(c, runs)
  {
    if runs != [] {
      var front, last := runs[..|runs| - 1], runs[|runs| - 1];
      StaleRunsCount(c, front);
      assert runs == front + [last];
      assert last in runs && (IsCurrent(last, c) <==> JudgedPresent(last, c));
      assert forall r :: r in runs <==> r in front || r == last;
    }
  }

  lemma {:induction false} StaleOfCounts(matched: seq<Case>, runs: seq<Run>)
    ensures StaleOf(matched, runs) > 0 <==> exists c :: c in matched && OnlyOld(c, runs)
  {
    hide OnlyOld, StaleRuns;
    if matched != [] {
      var front, last := matched[..|matched| - 1], matched[|matched| - 1];
      StaleOfCounts(front, runs);
      StaleRunsCount(last, runs);
      assert matched == front + [last];
      assert forall c :: c in matched <==> c in front || c == last;
    }
  }

  /** Short of an open finding: untested means no case covers the operation; without a current run of any of its
      cases it is stale if some case has older runs and merely reviewed if none has; partly conclusive means some
      current run said something, but not every case's did so in full. */
  lemma StatesExactly(e: Endpoint, cases: seq<Case>, runs: seq<Run>, findings: seq<Finding>)
    requires StateOf(e, cases, runs, findings) != ViolationCandidate
    ensures var state := StateOf(e, cases, runs, findings);
            var covered := exists c :: c in cases && Covers(c, e);
            var ran := exists c :: c in cases && Covers(c, e) && LatestCurrent(c, runs).Some?;
            var said := exists c :: c in cases && Covers(c, e) && LatestCurrent(c, runs).Some?
                                    && LatestCurrent(c, runs).value.status in {Conclusive, Partial};
            && (state == Untested <==> !covered)
            && (state == Stale <==> covered && !ran && exists c :: c in cases && Covers(c, e) && OnlyOld(c, runs))
            && (state == ReviewedNotExecuted <==>
                covered && !ran && forall c :: c in cases && Covers(c, e) ==> !OnlyOld(c, runs))
            && (state == PartlyConclusive <==> said && state != FullyConclusive)
            && (state == Inconclusive <==> ran && !said)
  {
    var matched := Matched(e, cases);
    var current := CurrentJobs(matched, runs);
    MatchedHas(e, cases);
    CurrentJobsAre(matched, runs);
    StaleOfCounts(matched, runs);
    hide Matched, CurrentJobs, LatestCurrent, Covers, Attributed, OpenIn, StaleOf, OnlyOld;
    assert matched == [] <==> forall c :: c in cases ==> !Covers(c, e) by {
      if matched != [] { assert matched[0] in matched; }
    }
    assert current == [] <==> forall c :: c in matched ==> LatestCurrent(c, runs).None? by {
      if current != [] { assert current[0] in current; }
      if c :| c in matched && LatestCurrent(c, runs).Some? { assert LatestCurrent(c, runs).value in current; }
    }
    SaidSomething(matched, runs, current);
  }

  lemma SaidSomething(matched: seq<Case>, runs: seq<Run>, current: seq<Run>)
    requires forall r :: r in current <==> exists c :: c in matched && LatestCurrent(c, runs) == Some(r)
    ensures (exists i :: 0 <= i < |current| && current[i].status in {Conclusive, Partial}) <==>
            exists c :: c in matched && LatestCurrent(c, runs).Some?
                        && LatestCurrent(c, runs).value.status in {Conclusive, Partial}
  {
    hide LatestCurrent;
    if i :| 0 <= i < |current| && current[i].status in {Conclusive, Partial} { assert current[i] in current; }
    if c :| c in matched && LatestCurrent(c, runs).Some?
            && LatestCurrent(c, runs).value.status in {Conclusive, Partial}
    {
      var r := LatestCurrent(c, runs).value;
      assert r in current;
      var i :| 0 <= i < |current| && current[i] == r;
    }
  }

  /** Conclusive means: no open finding, at least one matching case, and for every matching case the
      latest run of its present spec was conclusive. */
  lemma ConclusiveExactly(e: Endpoint, cases: seq<Case>, runs: seq<Run>, findings: seq<Finding>)
    ensures StateOf(e, cases, runs, findings) == FullyConclusive <==>
            && StateOf(e, cases, runs, findings) != ViolationCandidate
            && (exists c :: c in cases && Covers(c, e))
            && (forall c :: c in cases && Covers(c, e) ==>
                              LatestCurrent(c, runs).Some? && LatestCurrent(c, runs).value.status == Conclusive)
  {
    var matched := Matched(e, cases);
    var current := CurrentJobs(matched, runs);
    MatchedHas(e, cases);
    CurrentJobsAre(matched, runs);
    OneEach(matched, runs);
    hide Matched, CurrentJobs, LatestCurrent, Covers, Attributed, OpenIn, StaleOf;
    assert matched == [] <==> forall c :: c in cases ==> !Covers(c, e) by {
      if matched != [] { assert matched[0] in matched; }
    }
    if forall c :: c in matched ==> LatestCurrent(c, runs).Some? && LatestCurrent(c, runs).value.status == Conclusive {
      forall i | 0 <= i < |current| ensures current[i].status == Conclusive { assert current[i] in current; }
    }
    if |current| == |matched| && forall i :: 0 <= i < |current| ==> current[i].status == Conclusive {
      forall c | c in matched
        ensures LatestCurrent(c, runs).Some? && LatestCurrent(c, runs).value.status == Conclusive
      {
        assert LatestCurrent(c, runs).value in current;
      }
    }
  }

  // ----- One identity across the cases of an operation -----

  /** What one case says of an identity: nothing run yet, or its outcome in the latest current run. */
  datatype Cell = NotRun | Ran(outcome: Outcome)

  datatype IdentityState = NotReviewed | ReviewedNotRun | EvaluatedThroughout | Mixed | AtBest(outcome: Outcome)

  function Rank(o: Outcome): nat {
    match o case Evaluated => 4 case InconclusiveOutcome => 3 case Missing => 2 case Skipped => 1 case OtherOutcome => 0
  }

  function EvaluatedCount(cells: seq<Cell>): nat {
    if cells == [] then 0
    else EvaluatedCount(cells[..|cells| - 1]) + if cells[|cells| - 1] == Ran(Evaluated) then 1 else 0
  }

  /** The first outcome of the highest rank among the cells that ran. */
  function Best(cells: seq<Cell>): Option<Outcome> {
    if cells == [] then None
    else
      var best, last := Best(cells[..|cells| - 1]), cells[|cells| - 1];
      if last.NotRun? then best
      else if best.None? || Rank(best.value) < Rank(last.outcome) then Some(last.outcome) else best
  }

  function IdentityStateOf(cells: seq<Cell>): IdentityState {
    if cells == [] then NotReviewed
    else if Best(cells).None? then ReviewedNotRun
    else if EvaluatedCount(cells) == |cells| then EvaluatedThroughout
    else if EvaluatedCount(cells) > 0 then Mixed
    else AtBest(Best(cells).value)
  }

  lemma {:induction false} EvaluatedCounts(cells: seq<Cell>)
    ensures EvaluatedCount(cells) <= |cells|
    ensures EvaluatedCount(cells) == |cells| <==> forall c :: c in cells ==> c == Ran(Evaluated)
    ensures EvaluatedCount(cells) > 0 <==> Ran(Evaluated) in cells
  {
    if cells != [] {
      var front, last := cells[..|cells| - 1], cells[|cells| - 1];
      EvaluatedCounts(front);
      assert EvaluatedCount(cells) == EvaluatedCount(front) + if last == Ran(Evaluated) then 1 else 0;
      hide EvaluatedCount;
      assert cells == front + [last];
      assert last in cells;
      if EvaluatedCount(cells) != |cells| && last == Ran(Evaluated) {
        var c :| c in front && c != Ran(Evaluated);
        assert c in cells;
      }
    }
  }

  lemma {:induction false} BestIsBest(cells: seq<Cell>)
    ensures Best(cells).None? <==> forall c :: c in cells ==> c.NotRun?
    ensures Best(cells).Some? ==> Ran(Best(cells).value) in cells
                                  && forall c :: c in cells && c.Ran? ==> Rank(c.outcome) <= Rank(Best(cells).value)
  {
    if cells != [] {
      BestIsBest(cells[..|cells| - 1]);
      assert cells == cells[..|cells| - 1] + [cells[|cells| - 1]];
    }
  }

  /** What a state claims of the cells there are. */
  predicate Claims(state: IdentityState, cells: set<Cell>) {
    match state
    case NotReviewed => cells == {}
    case ReviewedNotRun => cells == {NotRun}
    case EvaluatedThroughout => cells == {Ran(Evaluated)}
    case Mixed => Ran(Evaluated) in cells && cells != {Ran(Evaluated)}
    case AtBest(o) =>
      && Ran(o) in cells && Ran(Evaluated) !in cells
      && forall c :: c in cells && c.Ran? ==> Rank(c.outcome) <= Rank(o)
  }

  lemma OneClaimHolds(a: IdentityState, b: IdentityState, cells: set<Cell>)
    requires Claims(a, cells) && Claims(b, cells)
    ensures a == b
  {
    assert Ran(Evaluated) in {Ran(Evaluated)} && NotRun in {NotRun};
  }

  lemma GivenStateIsTrue(cells: seq<Cell>)
    ensures Claims(IdentityStateOf(cells), set c | c in cells)
  {
    EvaluatedCounts(cells);
    BestIsBest(cells);
    hide EvaluatedCount, Best;
    var all := set c | c in cells;
    if cells != [] {
      assert cells[0] in all;
      if Best(cells).None? {
        assert all == {NotRun};
      } else if EvaluatedCount(cells) == |cells| {
        assert all == {Ran(Evaluated)};
      } else if EvaluatedCount(cells) > 0 {
        var c :| c in cells && c != Ran(Evaluated);
        assert c in all;
      }
    }
  }

  /** Exactly one state is true of the cells: the one they are given. */
  lemma StateIsTheTrueOne(cells: seq<Cell>, state: IdentityState)
    ensures IdentityStateOf(cells) == state <==> Claims(state, set c | c in cells)
  {
    hide IdentityStateOf, Claims;
    GivenStateIsTrue(cells);
    if Claims(state, set c | c in cells) { OneClaimHolds(IdentityStateOf(cells), state, set c | c in cells); }
  }

  /** The cell of a case: an identity its latest current run did not report on is missing there. */
  function CellOf(identity: string, c: Case, runs: seq<Run>): Cell {
    var latest := LatestCurrent(c, runs);
    if latest.None? then NotRun
    else Ran(if identity in latest.value.outcomes then latest.value.outcomes[identity] else Missing)
  }

  /** One cell for each matching case that declares the identity. */
  function CellsOf(identity: string, matched: seq<Case>, runs: seq<Run>): seq<Cell> {
    if matched == [] then []
    else
      var front, last := matched[..|matched| - 1], matched[|matched| - 1];
      CellsOf(identity, front, runs) + if identity in last.identities then [CellOf(identity, last, runs)] else []
  }

  /** Every identity some stored case declares, whatever that case reviews or matches. */
  function Universe(cases: seq<Case>): set<string> {
    set c, identity | c in cases && identity in c.identities :: identity
  }

  function IdentityRows(identities: set<string>, matched: seq<Case>, runs: seq<Run>): map<string, IdentityState> {
    map identity | identity in identities :: IdentityStateOf(CellsOf(identity, matched, runs))
  }

  lemma {:induction false} CellsAre(identity: string, matched: seq<Case>, runs: seq<Run>)
    ensures forall cell :: cell in CellsOf(identity, matched, runs) <==>
                           exists c :: c in matched && identity in c.identities && CellOf(identity, c, runs) == cell
  {
    hide CellOf;
    if matched != [] {
      var front, last := matched[..|matched| - 1], matched[|matched| - 1];
      CellsAre(identity, front, runs);
      assert matched == front + [last];
      assert forall c :: c in matched <==> c in front || c == last;
    }
  }

  // ----- The whole report -----

  datatype Operation = Operation(endpoint: int, state: State, matched: seq<Case>, attributed: seq<Run>,
                                 identities: map<string, IdentityState>)

  datatype Unplaced = NoUsableSnapshot | NoObservedOperation | UnusableRequest | NoReviewedExpectation

  datatype Report = Report(operations: seq<Operation>, unmatched: seq<(Case, Unplaced)>,
                           unattributed: seq<(Run, Unplaced)>)

  predicate Exercised(run: Run, endpoints: seq<Endpoint>) {
    exists i :: 0 <= i < |endpoints| && Exercises(run, endpoints[i])
  }

  predicate Covered(c: Case, endpoints: seq<Endpoint>) {
    exists i :: 0 <= i < |endpoints| && Covers(c, endpoints[i])
  }

  function RunRow(endpoints: seq<Endpoint>, r: Run): seq<(Run, Unplaced)> {
    if Exercised(r, endpoints) then [] else [(r, if r.request.None? then NoUsableSnapshot else NoObservedOperation)]
  }

  function CaseRow(endpoints: seq<Endpoint>, c: Case): seq<(Case, Unplaced)> {
    if !c.reviews || Covered(c, endpoints) then []
    else [(c, if c.request.None? then UnusableRequest else NoObservedOperation)]
  }

  function Unattributed(endpoints: seq<Endpoint>, runs: seq<Run>): seq<(Run, Unplaced)> {
    if runs == [] then [] else Unattributed(endpoints, runs[..|runs| - 1]) + RunRow(endpoints, runs[|runs| - 1])
  }

  function UnmatchedReviewed(endpoints: seq<Endpoint>, cases: seq<Case>): seq<(Case, Unplaced)> {
    if cases == [] then []
    else
      UnmatchedReviewed(endpoints, cases[..|cases| - 1]) + CaseRow(endpoints, cases[|cases| - 1])
  }

  function UnreviewedRow(c: Case): seq<(Case, Unplaced)> {
    if c.reviews then [] else [(c, NoReviewedExpectation)]
  }

  function Unreviewed(cases: seq<Case>): seq<(Case, Unplaced)> {
    if cases == [] then [] else Unreviewed(cases[..|cases| - 1]) + UnreviewedRow(cases[|cases| - 1])
  }

  function OperationOf(e: Endpoint, cases: seq<Case>, runs: seq<Run>, findings: seq<Finding>): Operation {
    var matched := Matched(e, cases);
    Operation(e.id, StateOf(e, cases, runs, findings), matched, Attributed(e, runs),
              IdentityRows(Universe(cases), matched, runs))
  }

  function ReportOf(endpoints: seq<Endpoint>, cases: seq<Case>, runs: seq<Run>, findings: seq<Finding>): Report {
    Report(seq(|endpoints|, i requires 0 <= i < |endpoints| => OperationOf(endpoints[i], cases, runs, findings)),
           UnmatchedReviewed(endpoints, cases) + Unreviewed(cases), Unattributed(endpoints, runs))
  }

  function Occurrences<T(==)>(rows: seq<(T, Unplaced)>, x: T): nat {
    if rows == [] then 0 else Occurrences(rows[..|rows| - 1], x) + if rows[|rows| - 1].0 == x then 1 else 0
  }

  lemma {:induction false} OccurrencesConcat<T>(a: seq<(T, Unplaced)>, b: seq<(T, Unplaced)>, x: T)
    ensures Occurrences(a + b, x) == Occurrences(a, x) + Occurrences(b, x)
  {
    if b == [] {
      assert a + b == a;
    } else {
      assert (a + b)[..|a + b| - 1] == a + b[..|b| - 1];
      OccurrencesConcat(a, b[..|b| - 1], x);
    }
  }

  lemma RunRowOnce(endpoints: seq<Endpoint>, last: Run, r: Run)
    ensures Occurrences(RunRow(endpoints, last), r) == if !Exercised(last, endpoints) && last == r then 1 else 0
  {
    hide Exercised;
  }

  lemma CaseRowOnce(endpoints: seq<Endpoint>, last: Case, c: Case)
    ensures Occurrences(CaseRow(endpoints, last), c) ==
            if last.reviews && !Covered(last, endpoints) && last == c then 1 else 0
  {
    hide Covered;
  }

  lemma {:induction false} UnattributedOnce(endpoints: seq<Endpoint>, runs: seq<Run>, r: Run)
    ensures Occurrences(Unattributed(endpoints, runs), r) == if Exercised(r, endpoints) then 0 else multiset(runs)[r]
  {
    hide Exercised, RunRow;
    if runs != [] {
      var front, last := runs[..|runs| - 1], runs[|runs| - 1];
      UnattributedOnce(endpoints, front, r);
      assert runs == front + [last];
      RunRowOnce(endpoints, last, r);
      OccurrencesConcat(Unattributed(endpoints, front), RunRow(endpoints, last), r);
    }
  }

  lemma {:induction false} UnmatchedOnce(endpoints: seq<Endpoint>, cases: seq<Case>, c: Case)
    ensures Occurrences(UnmatchedReviewed(endpoints, cases), c) ==
            if !c.reviews || Covered(c, endpoints) then 0 else multiset(cases)[c]
  {
    hide Covered, CaseRow;
    if cases != [] {
      var front, last := cases[..|cases| - 1], cases[|cases| - 1];
      UnmatchedOnce(endpoints, front, c);
      assert cases == front + [last];
      CaseRowOnce(endpoints, last, c);
      OccurrencesConcat(UnmatchedReviewed(endpoints, front), CaseRow(endpoints, last), c);
    }
  }

  lemma UnreviewedRowOnce(last: Case, c: Case)
    ensures Occurrences(UnreviewedRow(last), c) == if !last.reviews && last == c then 1 else 0
  {
  }

  lemma {:induction false} UnreviewedOnce(cases: seq<Case>, c: Case)
    ensures Occurrences(Unreviewed(cases), c) == if c.reviews then 0 else multiset(cases)[c]
  {
    hide UnreviewedRow;
    if cases != [] {
      var front, last := cases[..|cases| - 1], cases[|cases| - 1];
      UnreviewedOnce(front, c);
      assert cases == front + [last];
      UnreviewedRowOnce(last, c);
      OccurrencesConcat(Unreviewed(front), UnreviewedRow(last), c);
    }
  }

  /** Nothing is lost and nothing is listed twice: every executed run is attributed to some operation, or
      listed as unattributed exactly once and attributed to none; and likewise every case. */
  lemma NothingIsLost(endpoints: seq<Endpoint>, cases: seq<Case>, runs: seq<Run>, findings: seq<Finding>, r: Run,
                      c: Case)
    requires multiset(runs)[r] == 1 && multiset(cases)[c] == 1
    ensures var report := ReportOf(endpoints, cases, runs, findings);
            && Occurrences(report.unattributed, r) ==
               (if exists i :: 0 <= i < |endpoints| && r in report.operations[i].attributed then 0 else 1)
            && Occurrences(report.unmatched, c) ==
               (if exists i :: 0 <= i < |endpoints| && c in report.operations[i].matched then 0 else 1)
  {
    var report := ReportOf(endpoints, cases, runs, findings);
    UnattributedOnce(endpoints, runs, r);
    UnmatchedOnce(endpoints, cases, c);
    UnreviewedOnce(cases, c);
    OccurrencesConcat(UnmatchedReviewed(endpoints, cases), Unreviewed(cases), c);
    hide Unattributed, UnmatchedReviewed, Unreviewed, Occurrences, OperationMatches, StateOf;
    forall i | 0 <= i < |endpoints|
      ensures r in report.operations[i].attributed <==> Exercises(r, endpoints[i])
      ensures c in report.operations[i].matched <==> Covers(c, endpoints[i])
    {
      AttributedHas(endpoints[i], runs);
      MatchedHas(endpoints[i], cases);
    }
    hide Attributed, Matched;
  }

  /** What the operation's cases that declare an identity say of it. */
  function Said(identity: string, e: Endpoint, cases: seq<Case>, runs: seq<Run>): set<Cell> {
    set c | c in cases && Covers(c, e) && identity in c.identities :: CellOf(identity, c, runs)
  }

  /** Each operation has a state for every identity that some stored case declares, and it is the one state
      true of what the operation's own cases say: so evaluated means by every case that declares it, and
      evaluated by only some is mixed. */
  lemma MixedIsNeverEvaluated(endpoints: seq<Endpoint>, cases: seq<Case>, runs: seq<Run>, findings: seq<Finding>,
                              i: nat, identity: string, state: IdentityState)
    requires i < |endpoints|
    ensures var rows := ReportOf(endpoints, cases, runs, findings).operations[i].identities;
            && (identity in rows <==> exists c :: c in cases && identity in c.identities)
            && (identity in rows ==>
                  (rows[identity] == state <==> Claims(state, Said(identity, endpoints[i], cases, runs))))
  {
    var matched := Matched(endpoints[i], cases);
    MatchedHas(endpoints[i], cases);
    CellsAre(identity, matched, runs);
    StateIsTheTrueOne(CellsOf(identity, matched, runs), state);
    hide Covers, Matched, CellOf, CellsOf, IdentityStateOf, StateOf, Claims;
    assert (set c | c in CellsOf(identity, matched, runs)) == Said(identity, endpoints[i], cases, runs);
  }

  lemma {:induction false} UnattributedReasons(endpoints: seq<Endpoint>, runs: seq<Run>)
    ensures forall row :: row in Unattributed(endpoints, runs) ==>
                            row.1 == if row.0.request.None? then NoUsableSnapshot else NoObservedOperation
  {
    hide Exercised;
    if runs != [] { UnattributedReasons(endpoints, runs[..|runs| - 1]); }
  }

  lemma {:induction false} UnmatchedReasons(endpoints: seq<Endpoint>, cases: seq<Case>)
    ensures forall row :: row in UnmatchedReviewed(endpoints, cases) + Unreviewed(cases) ==>
                            row.1 == if !row.0.reviews then NoReviewedExpectation
                                     else if row.0.request.None? then UnusableRequest else NoObservedOperation
  {
    hide Covered;
    if cases != [] { UnmatchedReasons(endpoints, cases[..|cases| - 1]); }
  }

  /** Everything listed as not placed says why, and the reason is its own: what was missing, or that nothing in the
      inventory is what it asks for. */
  lemma ReasonsAreTrue(endpoints: seq<Endpoint>, cases: seq<Case>, runs: seq<Run>, findings: seq<Finding>)
    ensures var report := ReportOf(endpoints, cases, runs, findings);
            && (forall row :: row in report.unattributed ==>
                  row.1 == if row.0.request.None? then NoUsableSnapshot else NoObservedOperation)
            && (forall row :: row in report.unmatched ==>
                  row.1 == if !row.0.reviews then NoReviewedExpectation
                           else if row.0.request.None? then UnusableRequest else NoObservedOperation)
  {
    UnattributedReasons(endpoints, runs);
    UnmatchedReasons(endpoints, cases);
    hide Unattributed, UnmatchedReviewed, Unreviewed;
  }

  // ----- The report as it is built -----

  predicate DistinctIds(cases: seq<Case>, runs: seq<Run>) {
    && (forall i, k :: 0 <= i < k < |cases| ==> cases[i].id != cases[k].id)
    && (forall i, k :: 0 <= i < k < |runs| ==> runs[i].job != runs[k].job)
  }

  method SelectMatched(e: Endpoint, cases: seq<Case>) returns (matched: seq<Case>)
    ensures matched == Matched(e, cases)
  {
    hide OperationMatches;
    matched := [];
    for i := 0 to |cases|
      invariant matched == Matched(e, cases[..i])
    {
      assert cases[..i + 1][..i] == cases[..i];
      if Covers(cases[i], e) { matched := matched + [cases[i]]; }
    }
    assert cases[..|cases|] == cases;
  }

  method SelectAttributed(e: Endpoint, runs: seq<Run>) returns (attributed: seq<Run>)
    ensures attributed == Attributed(e, runs)
  {
    hide OperationMatches;
    attributed := [];
    for i := 0 to |runs|
      invariant attributed == Attributed(e, runs[..i])
    {
      assert runs[..i + 1][..i] == runs[..i];
      if Exercises(runs[i], e) { attributed := attributed + [runs[i]]; }
    }
    assert runs[..|runs|] == runs;
  }

  method ListUnattributed(endpoints: seq<Endpoint>, runs: seq<Run>, placed: set<int>)
    returns (rows: seq<(Run, Unplaced)>)
    requires forall r :: r in runs ==> (r.job in placed <==> Exercised(r, endpoints))
    ensures rows == Unattributed(endpoints, runs)
  {
    hide Exercised;
    rows := [];
    for i := 0 to |runs|
      invariant rows == Unattributed(endpoints, runs[..i])
    {
      assert runs[..i + 1][..i] == runs[..i] && runs[i] in runs;
      assert Unattributed(endpoints, runs[..i + 1]) == Unattributed(endpoints, runs[..i]) + RunRow(endpoints, runs[i]);
      hide Unattributed;
      if runs[i].job !in placed {
        rows := rows + [(runs[i], if runs[i].request.None? then NoUsableSnapshot else NoObservedOperation)];
      }
    }
    assert runs[..|runs|] == runs;
  }

  method ListUnmatched(endpoints: seq<Endpoint>, cases: seq<Case>, placed: set<int>)
    returns (rows: seq<(Case, Unplaced)>)
    requires forall c :: c in cases ==> (c.id in placed <==> Covered(c, endpoints))
    ensures rows == UnmatchedReviewed(endpoints, cases) + Unreviewed(cases)
  {
    hide Covered;
    var unmatched, unreviewed := [], [];
    for i := 0 to |cases|
      invariant unmatched == UnmatchedReviewed(endpoints, cases[..i]) && unreviewed == Unreviewed(cases[..i])
    {
      assert cases[..i + 1][..i] == cases[..i] && cases[i] in cases;
      if !cases[i].reviews {
        unreviewed := unreviewed + [(cases[i], NoReviewedExpectation)];
      } else if cases[i].id !in placed {
        unmatched := unmatched + [(cases[i], if cases[i].request.None? then UnusableRequest else NoObservedOperation)];
      }
    }
    assert cases[..|cases|] == cases;
    rows := unmatched + unreviewed;
  }

  method CollectUniverse(cases: seq<Case>) returns (universe: set<string>)
    ensures universe == Universe(cases)
  {
    universe := {};
    for i := 0 to |cases|
      invariant universe == Universe(cases[..i])
    {
      assert cases[..i + 1] == cases[..i] + [cases[i]];
      universe := universe + cases[i].identities;
    }
    assert cases[..|cases|] == cases;
  }

  method CollectCells(identity: string, matched: seq<Case>, runs: seq<Run>) returns (cells: seq<Cell>)
    ensures cells == CellsOf(identity, matched, runs)
  {
    hide CellOf;
    cells := [];
    for i := 0 to |matched|
      invariant cells == CellsOf(identity, matched[..i], runs)
    {
      assert matched[..i + 1][..i] == matched[..i];
      if identity in matched[i].identities { cells := cells + [CellOf(identity, matched[i], runs)]; }
    }
    assert matched[..|matched|] == matched;
  }

  method JudgeIdentities(universe: set<string>, matched: seq<Case>, runs: seq<Run>)
    returns (rows: map<string, IdentityState>)
    ensures rows == IdentityRows(universe, matched, runs)
  {
    hide CellsOf, IdentityStateOf;
    rows := map[];
    var rest := universe;
    while exists identity :: identity in rest
      invariant rest <= universe && rows == IdentityRows(universe - rest, matched, runs)
      decreases |rest|
    {
      var identity :| identity in rest;
      var cells := CollectCells(identity, matched, runs);
      rows := rows[identity := IdentityStateOf(cells)];
      assert universe - (rest - {identity}) == (universe - rest) + {identity};
      rest := rest - {identity};
    }
    assert rest == {} && universe - rest == universe;
  }

  lemma CasePlaced(e: Endpoint, endpoints: seq<Endpoint>, cases: seq<Case>, runs: seq<Run>, c: Case, before: set<int>,
                   matched: seq<Case>)
    requires DistinctIds(cases, runs) && c in cases && matched == Matched(e, cases)
    requires c.id in before <==> Covered(c, endpoints)
    ensures c.id in before + (set m | m in matched :: m.id) <==> Covered(c, endpoints + [e])
  {
    hide Covers;
    MatchedHas(e, cases);
    var longer := endpoints + [e];
    assert longer[|endpoints|] == e && forall i :: 0 <= i < |endpoints| ==> longer[i] == endpoints[i];
    if Covered(c, endpoints) {
      var i :| 0 <= i < |endpoints| && Covers(c, endpoints[i]);
      assert Covers(c, longer[i]);
    }
    if Covers(c, e) { assert Covers(c, longer[|endpoints|]); }
    forall m | m in matched && m.id == c.id ensures m == c {}
  }

  lemma RunPlaced(e: Endpoint, endpoints: seq<Endpoint>, cases: seq<Case>, runs: seq<Run>, r: Run, before: set<int>,
                  attributed: seq<Run>)
    requires DistinctIds(cases, runs) && r in runs && attributed == Attributed(e, runs)
    requires r.job in before <==> Exercised(r, endpoints)
    ensures r.job in before + (set m | m in attributed :: m.job) <==> Exercised(r, endpoints + [e])
  {
    hide Exercises;
    AttributedHas(e, runs);
    var longer := endpoints + [e];
    assert longer[|endpoints|] == e && forall i :: 0 <= i < |endpoints| ==> longer[i] == endpoints[i];
    if Exercised(r, endpoints) {
      var i :| 0 <= i < |endpoints| && Exercises(r, endpoints[i]);
      assert Exercises(r, longer[i]);
    }
    if Exercises(r, e) { assert Exercises(r, longer[|endpoints|]); }
    forall m | m in attributed && m.job == r.job ensures m == r {}
  }

  /** Place every case and run on the operations they match, remembering which were placed by id. */
  method Build(endpoints: seq<Endpoint>, cases: seq<Case>, runs: seq<Run>, findings: seq<Finding>)
    returns (report: Report)
    requires DistinctIds(cases, runs)
    ensures report == ReportOf(endpoints, cases, runs, findings)
  {
    hide StateOf, Unattributed, UnmatchedReviewed, Unreviewed, Covered, Exercised, DistinctIds, Matched, Attributed;
    hide Universe, IdentityRows;
    var universe := CollectUniverse(cases);
    var operations: seq<Operation> := [];
    var matchedIds: set<int>, attributedIds: set<int> := {}, {};
    NothingPlacedYet(cases, runs);
    for i := 0 to |endpoints|
      invariant |operations| == i && forall k :: 0 <= k < i ==>
                                                   operations[k] == OperationOf(endpoints[k], cases, runs, findings)
      invariant forall c :: c in cases ==> (c.id in matchedIds <==> Covered(c, endpoints[..i]))
      invariant forall r :: r in runs ==> (r.job in attributedIds <==> Exercised(r, endpoints[..i]))
    {
      var e := endpoints[i];
      var matched := SelectMatched(e, cases);
      var attributed := SelectAttributed(e, runs);
      assert endpoints[..i + 1] == endpoints[..i] + [e];
      forall c | c in cases
        ensures c.id in matchedIds + (set m | m in matched :: m.id) <==> Covered(c, endpoints[..i + 1])
      {
        CasePlaced(e, endpoints[..i], cases, runs, c, matchedIds, matched);
      }
      forall r | r in runs
        ensures r.job in attributedIds + (set m | m in attributed :: m.job) <==> Exercised(r, endpoints[..i + 1])
      {
        RunPlaced(e, endpoints[..i], cases, runs, r, attributedIds, attributed);
      }
      matchedIds := matchedIds + set m | m in matched :: m.id;
      attributedIds := attributedIds + set m | m in attributed :: m.job;
      var identities := JudgeIdentities(universe, matched, runs);
      var state := StateOf(e, cases, runs, findings);
      operations := operations + [Operation(e.id, state, matched, attributed, identities)];
    }
    assert endpoints[..|endpoints|] == endpoints;
    var unmatched := ListUnmatched(endpoints, cases, matchedIds);
    var unattributed := ListUnattributed(endpoints, runs, attributedIds);
    report := Report(operations, unmatched, unattributed);
    assert operations == ReportOf(endpoints, cases, runs, findings).operations;
  }

  lemma NothingPlacedYet(cases: seq<Case>, runs: seq<Run>)
    ensures forall c :: c in cases ==> !Covered(c, [])
    ensures forall r :: r in runs ==> !Exercised(r, [])
  {
  }
}
