/** Deriving an assessment from what a runner reported, against the case captured at claim. */
module Assessments {
  import opened Wrappers

  // ----- The case -----

  datatype Decision = Allow | Deny | Skip | Unknown

  /** A reviewed status or body rule; `codes` is absent when it is not a list of integers. */
  datatype Rule = Rule(decision: Decision, codes: Option<seq<int>>)

  /** Response assertions as stored; an entry that is not an object is `None`. */
  datatype Assertions = NotAList | Listed(rules: seq<Option<Rule>>)

  datatype Expectation = Expectation(identity: string, decision: Decision, assertions: Assertions)

  datatype Credential = Bearer | ApiKeyHeader | StaticHeader(named: bool) | NoCredential

  /** A declared identity; `preflight` is the status its session check must return. */
  datatype Declared = Declared(id: string, credential: Credential, preflight: Option<int>)

  datatype Strategy = Changed | Created | Deleted | LegacyChange | UnknownStrategy
  datatype Environment = SynchronousIsolated | LegacyEnvironment | UnknownEnvironment

  datatype WriteOracle =
    | NoOracle
    | NotAnObject
    | Oracle(reader: Option<Declared>, strategy: Strategy, environment: Environment, afterStatus: Option<seq<int>>,
             reset: bool)

  datatype Spec = Spec(identities: seq<Declared>, expected: seq<Expectation>, denyStatus: seq<int>, denyWhen: bool,
                       unauthorizedIsDenial: bool, oracle: WriteOracle)

  // ----- What the runner reported -----

  datatype Seen = SawAllow | SawDeny | SawOther

  /** One reported request; `code` is absent when it is not an integer. */
  datatype Run = Run(identity: string, code: Option<int>, seen: Seen, failed: bool)

  datatype Verdict = Allowed | Denied | Undecided | NotAttempted
  datatype Source = NoSource | HttpStatus | ResponseAssertion | WriteVerification

  datatype CredentialStatus = AnonymousIdentity | NotChecked | PreflightPassed | PreflightFailed
                            | PassedThen401 | Unverified401 | NotRecorded

  datatype WriteStatus =
    | WriteNotConfigured | WriteNotApplied | WriteInconclusive | VerifiedEffect | VerifiedNoEffect | WriteNotRecorded

  datatype WriteEvidence = WriteEvidence(strategy: Strategy, environment: Environment, reader: string,
                                         before: seq<int>, after: int, resetStatus: int,
                                         readerCredential: CredentialStatus)

  /** A sanitized semantic conclusion. */
  datatype Conclusion = Conclusion(identity: string, expected: Decision, verdict: Verdict, source: Source,
                                   reason: string,
                                   credential: CredentialStatus, write: WriteStatus,
                                   matched: seq<nat>, index: Option<nat>, evidence: Option<WriteEvidence>)

  datatype PreflightStatus = Passed | Failed | OtherStatus
  datatype PreflightRow = PreflightRow(identity: string, status: PreflightStatus, reason: string, code: Option<int>)

  // ----- The result -----

  datatype State = Evaluated | Inconclusive | Missing | Skipped

  datatype Item = Item(identity: string, expected: Decision, seen: Seen, state: State, reason: string,
                       conclusion: Option<Conclusion>, evidence: Option<WriteEvidence>, credential: CredentialStatus)

  datatype CheckStatus = CheckPassed | CheckFailed | CheckInconclusive | CheckMissing
  datatype SessionStatus = NotConfigured | SessionPassed | SessionFailed | SessionInconclusive

  /** What became of one identity's session check. */
  datatype Check = Check(status: CheckStatus, reason: string, code: Option<int>)

  datatype Session = Session(status: SessionStatus, checks: map<string, Check>, unexpected: nat)

  datatype Completeness = Conclusive | Partial | NothingConclusive

  datatype Report = Report(status: Completeness, evaluated: nat, inconclusive: nat, missing: nat, skipped: nat,
                           unexpected: nat, baseline: bool, items: seq<Item>, reasons: set<string>, session: Session)

  /** The stored record: the report, the number of findings (which nothing in the report depends on), and
      the case it was judged by. */
  datatype Record = Record(report: Report, candidates: nat, judged: Option<Spec>, snapshotVerified: bool)

  const EMPTY_SPEC := Spec([], [], [], false, false, NoOracle)

  function Settle(item: Item, state: State, reason: string): Item {
    item.(state := state, reason := reason)
  }

  // ----- Selecting rows -----

  /** The rows that name an identity, in order. */
  function Naming<T>(rows: seq<T>, name: T -> string, id: string): seq<T> {
    if rows == [] then []
    else Naming(rows[..|rows| - 1], name, id) + if name(rows[|rows| - 1]) == id then [rows[|rows| - 1]] else []
  }

  function RunsOf(runs: seq<Run>, id: string): seq<Run> {
    Naming(runs, (r: Run) => r.identity, id)
  }

  function ExpectationsOf(expected: seq<Expectation>, id: string): seq<Expectation> {
    Naming(expected, (e: Expectation) => e.identity, id)
  }

  function ConclusionsOf(rows: seq<Conclusion>, id: string): seq<Conclusion> {
    Naming(rows, (c: Conclusion) => c.identity, id)
  }

  function PreflightsOf(rows: seq<PreflightRow>, id: string): seq<PreflightRow> {
    Naming(rows, (p: PreflightRow) => p.identity, id)
  }

  /** The first declaration of an identity. */
  function DeclarationOf(declared: seq<Declared>, id: string): Option<Declared> {
    if declared == [] then None
    else if declared[0].id == id then Some(declared[0])
    else DeclarationOf(declared[1..], id)
  }

  // ----- Pass 1: the HTTP outcome alone -----

  predicate ValidCode(code: Option<int>) {
    code.Some? && 100 <= code.value <= 599
  }

  predicate SaysAllow(run: Run) {
    ValidCode(run.code) && 200 <= run.code.value < 300 && run.seen == SawAllow
  }

  predicate SaysDeny(spec: Spec, run: Run) {
    && ValidCode(run.code) && run.seen == SawDeny
    && (run.code.value == 401 || run.code.value == 403 || run.code.value in spec.denyStatus
        || (200 <= run.code.value < 300 && spec.denyWhen))
  }

  /** An identity's expectation, when exactly one was reviewed. */
  function DecisionOf(spec: Spec, id: string): Decision {
    var expected := ExpectationsOf(spec.expected, id);
    if |expected| == 1 then expected[0].decision else Unknown
  }

  function HttpItem(spec: Spec, runs: seq<Run>, id: string): Item {
    var decision := DecisionOf(spec, id);
    var rows := RunsOf(runs, id);
    var seen := if |rows| == 1 then rows[0].seen else SawOther;
    var item := Item(id, decision, seen, Inconclusive, "ambiguous_response", None, None, NotRecorded);
    if decision == Skip || decision == Unknown then Settle(item, Skipped, "no_reviewed_expectation")
    else if rows == [] then Settle(item, Missing, "execution_missing")
    else if |rows| != 1 then Settle(item, Inconclusive, "duplicate_execution")
    else if rows[0].failed then Settle(item, Inconclusive, "execution_error")
    else if !SaysAllow(rows[0]) && !SaysDeny(spec, rows[0]) then item
    else if decision == Allow && !SaysAllow(rows[0]) then Settle(item, Inconclusive, "legitimate_baseline_denied")
    else Settle(item, Evaluated, "reported_allow_or_deny")
  }

  // ----- Pass 2: semantic conclusions -----

  function AssertionsOf(spec: Spec, id: string): Assertions {
    var expected := ExpectationsOf(spec.expected, id);
    if |expected| == 1 then expected[0].assertions else Listed([])
  }

  /** The case says more than a status code is needed to judge this identity. */
  predicate Protected(spec: Spec, id: string) {
    AssertionsOf(spec, id) != Listed([]) || spec.oracle != NoOracle
  }

  predicate StatusConstraint(rule: Rule, status: int) {
    && rule.codes.Some? && (forall c :: c in rule.codes.value ==> 100 <= c <= 599)
    && (rule.codes.value == [] || status in rule.codes.value)
  }

  /** The assertions the runner says matched are the case's own, say this decision, and fit this response. */
  predicate AssertionHolds(assertions: Assertions, row: Conclusion, run: Run, decision: Decision) {
    && !run.failed && ValidCode(run.code) && assertions.Listed? && row.matched != []
    && row.reason == "assertion_matched"
    && forall i :: i in row.matched ==>
                     && i < |assertions.rules| && assertions.rules[i].Some?
                     && assertions.rules[i].value.decision == decision
                     && StatusConstraint(assertions.rules[i].value, run.code.value)
  }

  predicate BeforeHolds(strategy: Strategy, before: seq<int>) {
    |before| == 2 && forall s :: s in before ==> if strategy == Created then s == 404 else 200 <= s < 300
  }

  /** The verifier read the state before and after as the case prescribes, and the effect fits the decision. */
  predicate WriteHolds(oracle: WriteOracle, row: Conclusion, run: Run, decision: Decision) {
    && oracle.Oracle? && oracle.afterStatus.Some? && (forall c :: c in oracle.afterStatus.value ==> 400 <= c <= 499)
    && row.evidence.Some?
    && var e := row.evidence.value;
       && oracle.reader.Some? && e.reader == oracle.reader.value.id
       && e.strategy == oracle.strategy && e.environment == oracle.environment && e.environment != UnknownEnvironment
       && BeforeHolds(oracle.strategy, e.before)
       && e.after > 0 && (200 <= e.after < 300 || e.after == 404 || e.after in oracle.afterStatus.value)
       && row.reason == (if decision == Allow then "state_changed" else "state_unchanged")
       && (oracle.reset ==> 200 <= e.resetStatus < 300 && e.resetStatus != 202)
       && (decision == Deny ==> !run.failed && ValidCode(run.code) && run.code.value != 202)
  }

  function VerdictDecision(v: Verdict): Decision {
    if v == Allowed then Allow else Deny
  }

  /** The conclusion points at this identity's own request. */
  predicate IndexFits(runs: seq<Run>, row: Conclusion, id: string) {
    row.index.Some? ==> row.index.value < |runs| && runs[row.index.value].identity == id
  }

  predicate ConclusionHolds(spec: Spec, item: Item, row: Conclusion, run: Run) {
    match row.source
    case ResponseAssertion => AssertionHolds(AssertionsOf(spec, item.identity), row, run, VerdictDecision(row.verdict))
    case WriteVerification => WriteHolds(spec.oracle, row, run, VerdictDecision(row.verdict))
    case HttpStatus =>
      !Protected(spec, item.identity) && item.state == Evaluated
      && item.seen == (if row.verdict == Allowed then SawAllow else SawDeny)
    case NoSource => false
  }

  function SourceReason(s: Source): string {
    match s
    case ResponseAssertion => "reported_response_assertion"
    case WriteVerification => "reported_write_verification"
    case HttpStatus => "reported_http_status"
    case NoSource => "reported_none"
  }

  function EvidenceFor(spec: Spec, row: Conclusion): Option<WriteEvidence> {
    if row.evidence.Some? && spec.oracle.Oracle? && spec.oracle.reader.Some?
       && row.evidence.value.reader == spec.oracle.reader.value.id
    then row.evidence else None
  }

  function SemanticItem(spec: Spec, runs: seq<Run>, rows: seq<Conclusion>, verified: bool, item: Item): Item {
    var mine := ConclusionsOf(rows, item.identity);
    if mine == [] then
      if Protected(spec, item.identity) && item.state != Skipped
      then Settle(item, Inconclusive, "semantic_assessment_missing") else item
    else if |mine| != 1 || mine[0].expected != item.expected
    then Settle(item, Inconclusive, "semantic_assessment_inconsistent")
    else
      var row := mine[0];
      var noted := item.(conclusion := Some(row), evidence := EvidenceFor(spec, row));
      var actual := RunsOf(runs, item.identity);
      if item.state == Skipped then noted
      else if !verified then Settle(noted, Inconclusive, "case_snapshot_unverified")
      else if row.verdict != Allowed && row.verdict != Denied then Settle(noted, Inconclusive, row.reason)
      else if |actual| != 1 || !IndexFits(runs, row, item.identity)
      then Settle(noted, Inconclusive, "semantic_assessment_inconsistent")
      else if !ConclusionHolds(spec, item, row, actual[0])
      then Settle(noted, Inconclusive, "semantic_assessment_inconsistent")
      else if item.expected == Allow && row.verdict != Allowed
      then Settle(noted, Inconclusive, "legitimate_baseline_denied")
      else Settle(noted, Evaluated, SourceReason(row.source))
  }

  // ----- Pass 3: credentials -----

  predicate SendsCredentials(c: Credential) {
    c.Bearer? || c.ApiKeyHeader? || (c.StaticHeader? && c.named)
  }

  function CredentialOf(spec: Spec, id: string): Credential {
    var d := DeclarationOf(spec.identities, id);
    if d.Some? then d.value.credential else NoCredential
  }

  function CheckedAs(session: Session, id: string, otherwise: CredentialStatus): CredentialStatus {
    if id !in session.checks then otherwise
    else if session.checks[id].status == CheckPassed then PreflightPassed
    else PreflightFailed
  }

  predicate Refused401(runs: seq<Run>, id: string) {
    var rows := RunsOf(runs, id);
    |rows| == 1 && rows[0].code == Some(401)
  }

  function CredentialItem(spec: Spec, runs: seq<Run>, session: Session, verified: bool, item: Item): Item {
    var sends := SendsCredentials(CredentialOf(spec, item.identity));
    var status := CheckedAs(session, item.identity, if sends then NotChecked else AnonymousIdentity);
    var seen := if sends && Refused401(runs, item.identity)
                then if status == PreflightPassed then PassedThen401 else Unverified401
                else status;
    var reader := ReaderStatus(spec, session, verified);
    var noted := item.(credential := if verified then seen else NotRecorded,
                       evidence := if item.evidence.None? then None
                                   else Some(item.evidence.value.(readerCredential := reader)));
    if item.expected == Deny && Refused401(runs, item.identity) && sends && !spec.unauthorizedIsDenial
       && !(item.conclusion.Some? && item.conclusion.value.verdict == Allowed)
    then Settle(noted, Inconclusive, "credential_rejected")
    else noted
  }

  function ReaderStatus(spec: Spec, session: Session, verified: bool): CredentialStatus {
    if !verified then NotRecorded
    else if !spec.oracle.Oracle? || spec.oracle.reader.None? then NotChecked
    else
      var reader := spec.oracle.reader.value;
      CheckedAs(session, reader.id, if reader.credential == StaticHeader(false) then AnonymousIdentity else NotChecked)
  }

  // ----- Passes 4 to 6: snapshot, preflight, baseline -----

  function SnapshotItem(verified: bool, item: Item): Item {
    if !verified && item.state == Evaluated then Settle(item, Inconclusive, "case_snapshot_unverified") else item
  }

  predicate SessionHolds(session: Session) {
    session.status == SessionPassed || session.status == NotConfigured
  }

  function PreflightItem(session: Session, item: Item): Item {
    if !SessionHolds(session) && item.state != Skipped
    then Settle(item, Inconclusive, "identity_preflight_not_established") else item
  }

  predicate IsBaseline(item: Item) {
    item.expected == Allow && item.state == Evaluated
  }

  predicate HasBaseline(verified: bool, items: seq<Item>) {
    verified && exists i :: 0 <= i < |items| && IsBaseline(items[i])
  }

  function BaselineItem(baseline: bool, item: Item): Item {
    if !baseline && item.state == Evaluated then Settle(item, Inconclusive, "legitimate_baseline_missing") else item
  }

  // ----- Session preflights -----

  /** The identities that must pass a session check: each declared one, and the write verifier's reader;
      a later declaration of the same identity replaces an earlier one. */
  function Configured(declared: seq<Declared>): map<string, int> {
    if declared == [] then map[]
    else
      var last := declared[|declared| - 1];
      var front := Configured(declared[..|declared| - 1]);
      if last.preflight.Some? then front[last.id := last.preflight.value] else front
  }

  function ReaderOf(spec: Spec): seq<Declared> {
    if spec.oracle.Oracle? && spec.oracle.reader.Some? then [spec.oracle.reader.value] else []
  }

  predicate KnownFailure(reason: string) {
    reason in {"credential_rejected", "identity_mismatch", "unexpected_status", "execution_error"}
  }

  function CheckOf(rows: seq<PreflightRow>, expectedStatus: int, verified: bool): Check {
    var code := if |rows| == 1 then rows[0].code else None;
    if !verified then Check(CheckInconclusive, "case_snapshot_unverified", code)
    else if rows == [] then Check(CheckMissing, "preflight_missing", None)
    else if |rows| != 1 then Check(CheckInconclusive, "duplicate_preflight", None)
    else if rows[0].status == Passed && rows[0].reason == "identity_verified" && code == Some(expectedStatus)
    then Check(CheckPassed, "identity_verified", code)
    else if rows[0].status == Failed && KnownFailure(rows[0].reason) then Check(CheckFailed, rows[0].reason, code)
    else Check(CheckInconclusive, "preflight_inconsistent", code)
  }

  function Checks(configured: map<string, int>, rows: seq<PreflightRow>, verified: bool): map<string, Check> {
    map id | id in configured :: CheckOf(PreflightsOf(rows, id), configured[id], verified)
  }

  function Undeclared(configured: map<string, int>, rows: seq<PreflightRow>): nat {
    if rows == [] then 0
    else Undeclared(configured, rows[..|rows| - 1]) + if rows[|rows| - 1].identity in configured then 0 else 1
  }

  function SessionOf(spec: Spec, rows: seq<PreflightRow>, verified: bool): Session {
    var configured := Configured(spec.identities + ReaderOf(spec));
    var checks := Checks(configured, rows, verified);
    var unexpected := Undeclared(configured, rows);
    var status :=
      if unexpected != 0 then SessionInconclusive
      else if configured == map[] then NotConfigured
      else if forall id :: id in checks ==> checks[id].status == CheckPassed then SessionPassed
      else if exists id :: id in checks && checks[id].status == CheckFailed then SessionFailed
      else SessionInconclusive;
    Session(status, checks, unexpected)
  }

  // ----- The whole derivation -----

  /** An identity after every pass but the last. */
  function Derived(spec: Spec, runs: seq<Run>, rows: seq<Conclusion>, session: Session, verified: bool,
                   id: string): Item {
    var concluded := SemanticItem(spec, runs, rows, verified, HttpItem(spec, runs, id));
    PreflightItem(session, SnapshotItem(verified, CredentialItem(spec, runs, session, verified, concluded)))
  }

  function AllDerived(spec: Spec, runs: seq<Run>, rows: seq<Conclusion>, session: Session, verified: bool): seq<Item> {
    seq(|spec.identities|, i requires 0 <= i < |spec.identities| =>
      Derived(spec, runs, rows, session, verified, spec.identities[i].id))
  }

  function Concluded(baseline: bool, items: seq<Item>): seq<Item> {
    seq(|items|, i requires 0 <= i < |items| => BaselineItem(baseline, items[i]))
  }

  function CountOf(items: seq<Item>, state: State): nat {
    if items == [] then 0
    else CountOf(items[..|items| - 1], state) + if items[|items| - 1].state == state then 1 else 0
  }

  predicate IsDeclared(spec: Spec, id: string) {
    exists i :: 0 <= i < |spec.identities| && spec.identities[i].id == id
  }

  function Unexpected(spec: Spec, runs: seq<Run>): nat {
    if runs == [] then 0
    else Unexpected(spec, runs[..|runs| - 1]) + if IsDeclared(spec, runs[|runs| - 1].identity) then 0 else 1
  }

  function OpenReasons(items: seq<Item>): set<string> {
    set i | 0 <= i < |items| && items[i].state != Evaluated :: items[i].reason
  }

  function Flag(raised: bool, reason: string): set<string> {
    if raised then {reason} else {}
  }

  function Summary(captured: Option<Spec>, runs: seq<Run>, session: Session, verified: bool, baseline: bool,
                   items: seq<Item>): Report {
    var spec := if captured.Some? then captured.value else EMPTY_SPEC;
    var evaluated, unexpected := CountOf(items, Evaluated), Unexpected(spec, runs);
    var complete := items != [] && evaluated == |items| && unexpected == 0;
    Report(if complete then Conclusive else if evaluated > 0 then Partial else NothingConclusive,
           evaluated, CountOf(items, Inconclusive), CountOf(items, Missing), CountOf(items, Skipped), unexpected,
           baseline, items,
           OpenReasons(items) + Flag(!baseline, "legitimate_baseline_missing")
           + Flag(unexpected != 0, "unexpected_identity")
           + Flag(captured.None? || captured.value == EMPTY_SPEC, "case_snapshot_missing")
           + Flag(!verified, "case_snapshot_unverified"),
           session)
  }

  function ReportOf(captured: Option<Spec>, runs: seq<Run>, rows: seq<Conclusion>, preflight: seq<PreflightRow>,
                    verified: bool): Report {
    var spec := if captured.Some? then captured.value else EMPTY_SPEC;
    var session := SessionOf(spec, preflight, verified);
    var derived := AllDerived(spec, runs, rows, session, verified);
    var baseline := HasBaseline(verified, derived);
    Summary(captured, runs, session, verified, baseline, Concluded(baseline, derived))
  }

  // ----- What a final verdict guarantees -----

  /** Allow or deny, reviewed exactly once. */
  predicate Reviewed(spec: Spec, id: string, decision: Decision) {
    var expected := ExpectationsOf(spec.expected, id);
    |expected| == 1 && expected[0].decision == decision && (decision == Allow || decision == Deny)
  }

  /** The identity was judged by its HTTP outcome, which fits the decision it shows. */
  predicate JudgedByStatus(spec: Spec, runs: seq<Run>, item: Item) {
    && !Protected(spec, item.identity) && |RunsOf(runs, item.identity)| == 1
    && var run := RunsOf(runs, item.identity)[0];
       && !run.failed && (SaysAllow(run) || SaysDeny(spec, run)) && (item.expected == Allow ==> SaysAllow(run))
  }

  /** The identity was judged by the one conclusion reported for it, which its case and its response bear out. */
  predicate JudgedByEvidence(spec: Spec, runs: seq<Run>, rows: seq<Conclusion>, item: Item) {
    var mine, actual := ConclusionsOf(rows, item.identity), RunsOf(runs, item.identity);
    && |mine| == 1 && |actual| == 1 && mine[0].expected == item.expected && IndexFits(runs, mine[0], item.identity)
    && (mine[0].verdict == Allowed || mine[0].verdict == Denied)
    && (item.expected == Allow ==> mine[0].verdict == Allowed)
    && var decision := VerdictDecision(mine[0].verdict);
       || (mine[0].source == ResponseAssertion
           && AssertionHolds(AssertionsOf(spec, item.identity), mine[0], actual[0], decision))
       || (mine[0].source == WriteVerification && WriteHolds(spec.oracle, mine[0], actual[0], decision))
       || (mine[0].source == HttpStatus && JudgedByStatus(spec, runs, item)
           && item.seen == (if mine[0].verdict == Allowed then SawAllow else SawDeny))
  }

  lemma HttpSound(spec: Spec, runs: seq<Run>, id: string)
    ensures var item := HttpItem(spec, runs, id);
            && item.identity == id && item.expected == DecisionOf(spec, id) && item.conclusion.None?
            && (item.state != Skipped ==> Reviewed(spec, id, item.expected))
            && (item.state == Evaluated && !Protected(spec, id) ==> JudgedByStatus(spec, runs, item))
  {
  }

  /** What the second pass can call evaluated, whatever the first pass left. */
  lemma SemanticEvaluated(spec: Spec, runs: seq<Run>, rows: seq<Conclusion>, verified: bool, item: Item)
    requires SemanticItem(spec, runs, rows, verified, item).state == Evaluated && item.conclusion.None?
    requires item.state == Evaluated && !Protected(spec, item.identity) ==> JudgedByStatus(spec, runs, item)
    ensures var after := SemanticItem(spec, runs, rows, verified, item);
            && item.state != Skipped && after.identity == item.identity && after.expected == item.expected
            && (JudgedByEvidence(spec, runs, rows, after)
                || (ConclusionsOf(rows, item.identity) == [] && JudgedByStatus(spec, runs, after)))
  {
    hide AssertionHolds, WriteHolds, SaysAllow, SaysDeny, Protected;
    var after := SemanticItem(spec, runs, rows, verified, item);
    if item.state == Evaluated && !Protected(spec, item.identity) { assert JudgedByStatus(spec, runs, after); }
  }

  /** What the two passes that can say "evaluated" have checked. */
  lemma SemanticSound(spec: Spec, runs: seq<Run>, rows: seq<Conclusion>, verified: bool, id: string)
    requires SemanticItem(spec, runs, rows, verified, HttpItem(spec, runs, id)).state == Evaluated
    ensures var item := SemanticItem(spec, runs, rows, verified, HttpItem(spec, runs, id));
            && item.identity == id && Reviewed(spec, id, item.expected)
            && (JudgedByEvidence(spec, runs, rows, item)
                || (ConclusionsOf(rows, id) == [] && JudgedByStatus(spec, runs, item)))
            && item.expected == DecisionOf(spec, id)
  {
    HttpSound(spec, runs, id);
    hide HttpItem, SemanticItem, JudgedByStatus, JudgedByEvidence, Reviewed;
    SemanticEvaluated(spec, runs, rows, verified, HttpItem(spec, runs, id));
  }

  /** Every later pass only takes "evaluated" away. */
  lemma LaterPassesOnlyDemote(spec: Spec, runs: seq<Run>, rows: seq<Conclusion>, session: Session, verified: bool,
                              id: string)
    requires Derived(spec, runs, rows, session, verified, id).state == Evaluated
    ensures var before, after := SemanticItem(spec, runs, rows, verified, HttpItem(spec, runs, id)),
                                 Derived(spec, runs, rows, session, verified, id);
            && before.state == Evaluated && verified && SessionHolds(session)
            && after.identity == before.identity && after.expected == before.expected && after.seen == before.seen
            && (after.expected == Deny && Refused401(runs, id) && SendsCredentials(CredentialOf(spec, id))
                && !spec.unauthorizedIsDenial ==>
                  before.conclusion.Some? && before.conclusion.value.verdict == Allowed)
  {
    hide HttpItem, SemanticItem;
    var before := SemanticItem(spec, runs, rows, verified, HttpItem(spec, runs, id));
    SemanticKeepsIdentity(spec, runs, rows, verified, id);
  }

  lemma SemanticKeepsIdentity(spec: Spec, runs: seq<Run>, rows: seq<Conclusion>, verified: bool, id: string)
    ensures SemanticItem(spec, runs, rows, verified, HttpItem(spec, runs, id)).identity == id
  {
    HttpSound(spec, runs, id);
    hide HttpItem, ConclusionHolds, Protected, IndexFits;
  }

  /** Everything an identity that ends up evaluated is guaranteed to have. */
  predicate Sound(spec: Spec, runs: seq<Run>, rows: seq<Conclusion>, session: Session, verified: bool, item: Item) {
    && Reviewed(spec, item.identity, item.expected) && |RunsOf(runs, item.identity)| == 1
    && verified && SessionHolds(session)
    && (JudgedByEvidence(spec, runs, rows, item)
        || (ConclusionsOf(rows, item.identity) == [] && JudgedByStatus(spec, runs, item)))
  }

  lemma DerivedSound(spec: Spec, runs: seq<Run>, rows: seq<Conclusion>, session: Session, verified: bool, id: string)
    requires Derived(spec, runs, rows, session, verified, id).state == Evaluated
    ensures Derived(spec, runs, rows, session, verified, id).identity == id
    ensures Sound(spec, runs, rows, session, verified, Derived(spec, runs, rows, session, verified, id))
  {
    hide HttpItem, SemanticItem, Derived;
    LaterPassesOnlyDemote(spec, runs, rows, session, verified, id);
    SemanticSound(spec, runs, rows, verified, id);
    SemanticKeepsIdentity(spec, runs, rows, verified, id);
  }

  /** A finally evaluated identity has one reviewed expectation, exactly one execution, a verified
      snapshot, session checks that passed or were never configured, a judgement its evidence bears out,
      and beside it a legitimate caller that really was allowed. */
  lemma EvaluatedIsSound(captured: Option<Spec>, runs: seq<Run>, rows: seq<Conclusion>, preflight: seq<PreflightRow>,
                         verified: bool, i: nat)
    requires var report := ReportOf(captured, runs, rows, preflight, verified);
             i < |report.items| && report.items[i].state == Evaluated
    ensures var report := ReportOf(captured, runs, rows, preflight, verified);
            && captured.Some? && i < |captured.value.identities|
            && report.items[i].identity == captured.value.identities[i].id
            && Sound(captured.value, runs, rows, report.session, verified, report.items[i])
            && report.baseline && exists k :: 0 <= k < |report.items| && IsBaseline(report.items[k])
  {
    var spec := if captured.Some? then captured.value else EMPTY_SPEC;
    var session := SessionOf(spec, preflight, verified);
    var report := ReportOf(captured, runs, rows, preflight, verified);
    hide Derived, SessionOf, Sound, Summary;
    var derived := AllDerived(spec, runs, rows, session, verified);
    DerivedSound(spec, runs, rows, session, verified, spec.identities[i].id);
    SummaryShows(captured, runs, rows, preflight, verified);
    var k :| 0 <= k < |derived| && IsBaseline(derived[k]);
    assert IsBaseline(report.items[k]);
  }

  lemma SummaryShows(captured: Option<Spec>, runs: seq<Run>, rows: seq<Conclusion>, preflight: seq<PreflightRow>,
                     verified: bool)
    ensures var spec := if captured.Some? then captured.value else EMPTY_SPEC;
            var report := ReportOf(captured, runs, rows, preflight, verified);
            var derived := AllDerived(spec, runs, rows, SessionOf(spec, preflight, verified), verified);
            && report.session == SessionOf(spec, preflight, verified)
            && report.baseline == HasBaseline(verified, derived)
            && report.items == Concluded(report.baseline, derived)
  {
  }

  /** An identity with response assertions or a write verifier is never finally evaluated from its status alone. */
  lemma ProtectedNeedsEvidence(captured: Option<Spec>, runs: seq<Run>, rows: seq<Conclusion>,
                               preflight: seq<PreflightRow>,
                               verified: bool, i: nat)
    requires var report := ReportOf(captured, runs, rows, preflight, verified);
             i < |report.items| && report.items[i].state == Evaluated
    ensures captured.Some?
    ensures var id := ReportOf(captured, runs, rows, preflight, verified).items[i].identity;
            var mine := ConclusionsOf(rows, id);
            Protected(captured.value, id) ==>
              |mine| == 1 && (mine[0].source == ResponseAssertion || mine[0].source == WriteVerification)
  {
    hide ReportOf, AssertionHolds, WriteHolds, Protected;
    EvaluatedIsSound(captured, runs, rows, preflight, verified, i);
  }

  /** An identity expected to be allowed is finally evaluated only on an allow: seen, or concluded from evidence. */
  lemma AllowNeedsAllow(captured: Option<Spec>, runs: seq<Run>, rows: seq<Conclusion>, preflight: seq<PreflightRow>,
                        verified: bool, i: nat)
    requires var report := ReportOf(captured, runs, rows, preflight, verified);
             i < |report.items| && report.items[i].state == Evaluated && report.items[i].expected == Allow
    ensures var id := ReportOf(captured, runs, rows, preflight, verified).items[i].identity;
            var mine := ConclusionsOf(rows, id);
            |RunsOf(runs, id)| == 1 && if mine == [] then SaysAllow(RunsOf(runs, id)[0]) else mine[0].verdict == Allowed
  {
    hide ReportOf, AssertionHolds, WriteHolds, Protected, SaysAllow, SaysDeny;
    EvaluatedIsSound(captured, runs, rows, preflight, verified, i);
  }

  /** A denial by 401 counts only if the credentials were not the reason, or the case says 401 is a denial. */
  lemma RejectedCredentialsProveNothing(spec: Spec, runs: seq<Run>, rows: seq<Conclusion>, session: Session,
                                        verified: bool, id: string)
    requires DecisionOf(spec, id) == Deny && Refused401(runs, id)
    requires SendsCredentials(CredentialOf(spec, id)) && !spec.unauthorizedIsDenial
    requires Derived(spec, runs, rows, session, verified, id).state == Evaluated
    ensures |ConclusionsOf(rows, id)| == 1 && ConclusionsOf(rows, id)[0].verdict == Allowed
  {
    LaterPassesOnlyDemote(spec, runs, rows, session, verified, id);
    SemanticSound(spec, runs, rows, verified, id);
    HttpSound(spec, runs, id);
    hide Derived, HttpItem, ConclusionHolds;
  }

  // ----- What a final verdict is, said without the passes -----

  predicate IsSuccess(code: int) {
    200 <= code <= 299
  }

  /** The status alone decides: an allow that succeeded, or, where a denial was reviewed, a denial by a code that
      stands for one. */
  predicate StatusDecides(spec: Spec, run: Run, decision: Decision) {
    && !run.failed && run.code.Some?
    && var code := run.code.value;
       || (run.seen == SawAllow && IsSuccess(code))
       || (decision == Deny && run.seen == SawDeny
           && (code in {401, 403} || (code in spec.denyStatus && 100 <= code <= 599)
               || (spec.denyWhen && IsSuccess(code))))
  }

  /** The assertions reported as matched are the case's own, well formed, of the decision concluded, and allow the
      status received. */
  predicate AssertionDecides(e: Expectation, row: Conclusion, run: Run) {
    && row.source == ResponseAssertion && row.reason == "assertion_matched"
    && !run.failed && run.code.Some? && 100 <= run.code.value <= 599
    && e.assertions.Listed? && row.matched != []
    && forall i :: i in row.matched ==>
         && i < |e.assertions.rules| && e.assertions.rules[i].Some?
         && var rule := e.assertions.rules[i].value;
            && rule.decision == (if row.verdict == Allowed then Allow else Deny) && rule.codes.Some?
            && (forall c :: c in rule.codes.value ==> 100 <= c <= 599)
            && (rule.codes.value == [] || run.code.value in rule.codes.value)
  }

  /** The prescribed reader saw the prescribed state before and after, in the prescribed way, and what changed is
      what was concluded. */
  predicate WriteDecides(oracle: WriteOracle, row: Conclusion, run: Run) {
    && row.source == WriteVerification && oracle.Oracle? && oracle.reader.Some? && row.evidence.Some?
    && oracle.afterStatus.Some? && (forall c :: c in oracle.afterStatus.value ==> 400 <= c <= 499)
    && var e := row.evidence.value;
       && e.reader == oracle.reader.value.id && e.strategy == oracle.strategy
       && e.environment == oracle.environment && e.environment in {SynchronousIsolated, LegacyEnvironment}
       && |e.before| == 2
       && (if oracle.strategy == Created then e.before == [404, 404]
           else IsSuccess(e.before[0]) && IsSuccess(e.before[1]))
       && (IsSuccess(e.after) || e.after == 404 || e.after in oracle.afterStatus.value)
       && (oracle.reset ==> IsSuccess(e.resetStatus) && e.resetStatus != 202)
       && if row.verdict == Allowed then row.reason == "state_changed"
          else
            && row.reason == "state_unchanged" && !run.failed && run.code.Some?
            && 100 <= run.code.value <= 599 && run.code.value != 202
  }

  /** The one expectation, the one execution and at most one conclusion of an identity settle it. */
  predicate Settled(spec: Spec, runs: seq<Run>, rows: seq<Conclusion>, e: Expectation) {
    var actual, mine := RunsOf(runs, e.identity), ConclusionsOf(rows, e.identity);
    var plain := e.assertions == Listed([]) && spec.oracle == NoOracle;
    && |actual| == 1
    && if mine == [] then plain && StatusDecides(spec, actual[0], e.decision)
       else
         && |mine| == 1 && mine[0].expected == e.decision
         && (mine[0].verdict == Allowed || (mine[0].verdict == Denied && e.decision == Deny))
         && (mine[0].index.Some? ==>
               mine[0].index.value < |runs| && runs[mine[0].index.value].identity == e.identity)
         && (|| AssertionDecides(e, mine[0], actual[0])
             || WriteDecides(spec.oracle, mine[0], actual[0])
             || (mine[0].source == HttpStatus && plain && StatusDecides(spec, actual[0], e.decision)
                 && actual[0].seen == (if mine[0].verdict == Allowed then SawAllow else SawDeny)))
  }

  /** The first declaration of the identity carries credentials to present. */
  predicate Presents(spec: Spec, id: string) {
    exists k :: && 0 <= k < |spec.identities| && spec.identities[k].id == id
                && (forall n :: 0 <= n < k ==> spec.identities[n].id != id)
                && spec.identities[k].credential in {Bearer, ApiKeyHeader, StaticHeader(true)}
  }

  lemma {:induction false} FirstDeclaration(declared: seq<Declared>, id: string)
    ensures match DeclarationOf(declared, id)
            case None => forall k :: 0 <= k < |declared| ==> declared[k].id != id
            case Some(d) => exists k :: && 0 <= k < |declared| && declared[k] == d && d.id == id
                                        && forall n :: 0 <= n < k ==> declared[n].id != id
  {
    if declared != [] && declared[0].id != id {
      FirstDeclaration(declared[1..], id);
      if DeclarationOf(declared[1..], id).Some? {
        var d := DeclarationOf(declared[1..], id).value;
        var k :| 0 <= k < |declared| - 1 && declared[1..][k] == d
                 && forall n :: 0 <= n < k ==> declared[1..][n].id != id;
        assert declared[k + 1] == d;
        forall n | 0 <= n < k + 1 ensures declared[n].id != id { if n > 0 { assert declared[1..][n - 1].id != id; } }
      } else {
        forall k | 0 < k < |declared| ensures declared[k].id != id { assert declared[1..][k - 1].id != id; }
      }
    }
  }

  lemma PresentsExactly(spec: Spec, id: string)
    ensures SendsCredentials(CredentialOf(spec, id)) <==> Presents(spec, id)
  {
    FirstDeclaration(spec.identities, id);
    hide DeclarationOf;
  }

  /** A 401 to presented credentials stands for their rejection, unless the case says otherwise or the runner
      concluded the identity was let in. */
  predicate OnlyRejected(spec: Spec, runs: seq<Run>, rows: seq<Conclusion>, e: Expectation) {
    var actual, mine := RunsOf(runs, e.identity), ConclusionsOf(rows, e.identity);
    && e.decision == Deny && |actual| == 1 && actual[0].code == Some(401) && !spec.unauthorizedIsDenial
    && Presents(spec, e.identity)
    && !(mine != [] && mine[0].verdict == Allowed)
  }

  lemma AssertionExactly(e: Expectation, row: Conclusion, run: Run)
    requires row.source == ResponseAssertion && row.verdict in {Allowed, Denied}
    ensures AssertionHolds(e.assertions, row, run, VerdictDecision(row.verdict)) <==> AssertionDecides(e, row, run)
  {
  }

  lemma BeforeExactly(strategy: Strategy, before: seq<int>)
    ensures BeforeHolds(strategy, before) <==>
            && |before| == 2
            && if strategy == Created then before == [404, 404] else IsSuccess(before[0]) && IsSuccess(before[1])
  {
    if |before| == 2 {
      assert before[0] in before && before[1] in before;
      forall s | s in before ensures s == before[0] || s == before[1] {
        var i :| 0 <= i < 2 && before[i] == s;
      }
      if before[0] == 404 && before[1] == 404 { assert before == [404, 404]; }
    }
  }

  lemma WriteExactly(oracle: WriteOracle, row: Conclusion, run: Run)
    requires row.source == WriteVerification && row.verdict in {Allowed, Denied}
    ensures WriteHolds(oracle, row, run, VerdictDecision(row.verdict)) <==> WriteDecides(oracle, row, run)
  {
    if oracle.Oracle? && row.evidence.Some? { BeforeExactly(oracle.strategy, row.evidence.value.before); }
    hide BeforeHolds;
  }

  /** Without a conclusion the second pass keeps what the first one said, unless more was needed. */
  lemma UnconcludedExactly(spec: Spec, runs: seq<Run>, rows: seq<Conclusion>, verified: bool, item: Item)
    requires ConclusionsOf(rows, item.identity) == [] && item.state != Skipped
    ensures SemanticItem(spec, runs, rows, verified, item).state == Evaluated <==>
            item.state == Evaluated && !Protected(spec, item.identity)
  {
    hide Protected;
  }

  /** With one, it is the conclusion that has to hold. */
  lemma ConcludedExactly(spec: Spec, runs: seq<Run>, rows: seq<Conclusion>, verified: bool, item: Item)
    requires ConclusionsOf(rows, item.identity) != [] && item.state != Skipped && item.expected in {Allow, Deny}
    ensures var mine, actual := ConclusionsOf(rows, item.identity), RunsOf(runs, item.identity);
            SemanticItem(spec, runs, rows, verified, item).state == Evaluated <==>
            && |mine| == 1 && mine[0].expected == item.expected && verified && |actual| == 1
            && (mine[0].verdict == Allowed || (mine[0].verdict == Denied && item.expected == Deny))
            && IndexFits(runs, mine[0], item.identity) && ConclusionHolds(spec, item, mine[0], actual[0])
  {
    hide ConclusionHolds, IndexFits, EvidenceFor, ConclusionsOf, RunsOf;
  }

  lemma SourceExactly(spec: Spec, item: Item, e: Expectation, row: Conclusion, run: Run)
    requires ExpectationsOf(spec.expected, item.identity) == [e] && row.verdict in {Allowed, Denied}
    requires item.seen == run.seen && (item.state == Evaluated <==> StatusDecides(spec, run, e.decision))
    ensures ConclusionHolds(spec, item, row, run) <==>
            || AssertionDecides(e, row, run)
            || WriteDecides(spec.oracle, row, run)
            || (row.source == HttpStatus && e.assertions == Listed([]) && spec.oracle == NoOracle
                && StatusDecides(spec, run, e.decision)
                && run.seen == (if row.verdict == Allowed then SawAllow else SawDeny))
  {
    if row.source == ResponseAssertion { AssertionExactly(e, row, run); }
    if row.source == WriteVerification { WriteExactly(spec.oracle, row, run); }
    hide ExpectationsOf, AssertionHolds, WriteHolds, StatusDecides;
  }

  lemma SettledExactly(spec: Spec, runs: seq<Run>, rows: seq<Conclusion>, verified: bool, e: Expectation)
    requires ExpectationsOf(spec.expected, e.identity) == [e] && e.decision in {Allow, Deny} && verified
    ensures SemanticItem(spec, runs, rows, verified, HttpItem(spec, runs, e.identity)).state == Evaluated <==>
            Settled(spec, runs, rows, e)
  {
    var item, mine := HttpItem(spec, runs, e.identity), ConclusionsOf(rows, e.identity);
    HttpSound(spec, runs, e.identity);
    FirstPassExactly(spec, runs, e);
    if mine == [] {
      UnconcludedExactly(spec, runs, rows, verified, item);
    } else {
      ConcludedExactly(spec, runs, rows, verified, item);
      if |RunsOf(runs, e.identity)| == 1 && mine[0].verdict in {Allowed, Denied} {
        SourceExactly(spec, item, e, mine[0], RunsOf(runs, e.identity)[0]);
      }
    }
    hide HttpItem, SemanticItem, ConclusionHolds, AssertionDecides, WriteDecides, StatusDecides, ExpectationsOf, RunsOf;
    hide ConclusionsOf;
  }

  lemma FirstPassExactly(spec: Spec, runs: seq<Run>, e: Expectation)
    requires ExpectationsOf(spec.expected, e.identity) == [e] && e.decision in {Allow, Deny}
    ensures var item, actual := HttpItem(spec, runs, e.identity), RunsOf(runs, e.identity);
            && item.state != Skipped && item.expected == e.decision
            && (item.state == Evaluated ==> |actual| == 1)
            && (|actual| == 1 ==> item.seen == actual[0].seen
                                  && (item.state == Evaluated <==> StatusDecides(spec, actual[0], e.decision)))
            && (Protected(spec, e.identity) <==> !(e.assertions == Listed([]) && spec.oracle == NoOracle))
  {
    hide ExpectationsOf, RunsOf;
  }

  lemma DemotionsExactly(spec: Spec, runs: seq<Run>, rows: seq<Conclusion>, session: Session, e: Expectation)
    requires ExpectationsOf(spec.expected, e.identity) == [e] && e.decision in {Allow, Deny}
    requires Settled(spec, runs, rows, e)
    ensures Derived(spec, runs, rows, session, true, e.identity).state == Evaluated <==>
            SessionHolds(session) && !OnlyRejected(spec, runs, rows, e)
  {
    var item := SemanticItem(spec, runs, rows, true, HttpItem(spec, runs, e.identity));
    SettledExactly(spec, runs, rows, true, e);
    SemanticKeepsIdentity(spec, runs, rows, true, e.identity);
    ConclusionKept(spec, runs, rows, true, e);
    PresentsExactly(spec, e.identity);
    hide Presents, SendsCredentials;
    hide HttpItem, SemanticItem, Settled, ExpectationsOf, RunsOf, ConclusionsOf, CredentialOf, ReaderStatus;
  }

  lemma ConclusionKept(spec: Spec, runs: seq<Run>, rows: seq<Conclusion>, verified: bool, e: Expectation)
    requires ExpectationsOf(spec.expected, e.identity) == [e] && Settled(spec, runs, rows, e)
    requires e.decision in {Allow, Deny}
    ensures var item, mine := SemanticItem(spec, runs, rows, verified, HttpItem(spec, runs, e.identity)),
                              ConclusionsOf(rows, e.identity);
            item.expected == e.decision && item.conclusion == if mine == [] then None else Some(mine[0])
  {
    HttpSound(spec, runs, e.identity);
    FirstPassExactly(spec, runs, e);
    ConclusionNoted(spec, runs, rows, verified, HttpItem(spec, runs, e.identity));
    hide HttpItem, SemanticItem, ConclusionsOf, RunsOf, ExpectationsOf, Protected;
    hide AssertionDecides, WriteDecides, StatusDecides;
  }

  lemma ConclusionNoted(spec: Spec, runs: seq<Run>, rows: seq<Conclusion>, verified: bool, item: Item)
    requires item.conclusion == None
    requires var mine := ConclusionsOf(rows, item.identity);
             mine == [] || (|mine| == 1 && mine[0].expected == item.expected)
    ensures var after, mine := SemanticItem(spec, runs, rows, verified, item), ConclusionsOf(rows, item.identity);
            after.expected == item.expected && after.conclusion == if mine == [] then None else Some(mine[0])
  {
    hide ConclusionHolds, IndexFits, EvidenceFor, ConclusionsOf, RunsOf, Protected;
  }

  /** The first four passes leave an identity evaluated exactly on a verified snapshot under a session that holds, when
      its one reviewed expectation is settled and not merely its credentials failed. */
  lemma DerivedExactly(spec: Spec, runs: seq<Run>, rows: seq<Conclusion>, session: Session, verified: bool, id: string)
    ensures var expected := ExpectationsOf(spec.expected, id);
            Derived(spec, runs, rows, session, verified, id).state == Evaluated <==>
            && verified && SessionHolds(session) && |expected| == 1 && expected[0].decision in {Allow, Deny}
            && Settled(spec, runs, rows, expected[0]) && !OnlyRejected(spec, runs, rows, expected[0])
  {
    ExpectationsName(spec.expected, id);
    if Derived(spec, runs, rows, session, verified, id).state == Evaluated {
      DerivedSound(spec, runs, rows, session, verified, id);
      LaterPassesOnlyDemote(spec, runs, rows, session, verified, id);
    }
    var expected := ExpectationsOf(spec.expected, id);
    if |expected| == 1 && expected[0].decision in {Allow, Deny} && verified {
      assert expected == [expected[0]];
      SettledExactly(spec, runs, rows, verified, expected[0]);
      if Settled(spec, runs, rows, expected[0]) { DemotionsExactly(spec, runs, rows, session, expected[0]); }
    }
    hide Derived, Settled, OnlyRejected, ExpectationsOf, JudgedByStatus, JudgedByEvidence, SemanticItem, HttpItem;
    hide SessionHolds;
  }

  /** An identity is finally evaluated exactly when the snapshot is verified, the session holds, a legitimate caller
      was let in, its one reviewed expectation is settled, and it was not merely its credentials that failed. */
  lemma VerdictExactly(captured: Option<Spec>, runs: seq<Run>, rows: seq<Conclusion>, preflight: seq<PreflightRow>,
                       verified: bool, i: nat)
    requires i < |ReportOf(captured, runs, rows, preflight, verified).items|
    ensures captured.Some? && i < |captured.value.identities|
    ensures var report, spec := ReportOf(captured, runs, rows, preflight, verified), captured.value;
            var expected := ExpectationsOf(spec.expected, spec.identities[i].id);
            report.items[i].state == Evaluated <==>
            && verified && report.session.status in {SessionPassed, NotConfigured} && report.baseline
            && |expected| == 1 && expected[0].decision in {Allow, Deny}
            && Settled(spec, runs, rows, expected[0]) && !OnlyRejected(spec, runs, rows, expected[0])
  {
    SummaryShows(captured, runs, rows, preflight, verified);
    var spec := captured.value;
    DerivedExactly(spec, runs, rows, SessionOf(spec, preflight, verified), verified, spec.identities[i].id);
    hide ReportOf, Derived, SessionOf, Settled, OnlyRejected, ExpectationsOf;
  }

  /** This identity was reviewed as allowed, and that is settled. */
  predicate LetIn(spec: Spec, runs: seq<Run>, rows: seq<Conclusion>, id: string) {
    var expected := ExpectationsOf(spec.expected, id);
    |expected| == 1 && expected[0].decision == Allow && Settled(spec, runs, rows, expected[0])
  }

  lemma LetInExactly(spec: Spec, runs: seq<Run>, rows: seq<Conclusion>, session: Session, id: string)
    ensures IsBaseline(Derived(spec, runs, rows, session, true, id)) <==>
            SessionHolds(session) && LetIn(spec, runs, rows, id)
  {
    DerivedExactly(spec, runs, rows, session, true, id);
    DerivedExpects(spec, runs, rows, session, true, id);
    hide Derived, Settled, ExpectationsOf, SessionHolds;
  }

  lemma DerivedExpects(spec: Spec, runs: seq<Run>, rows: seq<Conclusion>, session: Session, verified: bool, id: string)
    ensures Derived(spec, runs, rows, session, verified, id).expected == DecisionOf(spec, id)
  {
    HttpSound(spec, runs, id);
    SemanticKeepsExpected(spec, runs, rows, verified, HttpItem(spec, runs, id));
    hide HttpItem, SemanticItem, DecisionOf, ReaderStatus, CredentialOf, Refused401;
  }

  lemma SemanticKeepsExpected(spec: Spec, runs: seq<Run>, rows: seq<Conclusion>, verified: bool, item: Item)
    ensures SemanticItem(spec, runs, rows, verified, item).expected == item.expected
  {
    hide ConclusionHolds, Protected, IndexFits, EvidenceFor, ConclusionsOf, RunsOf;
  }

  /** There is a legitimate caller exactly when some declared identity was reviewed as allowed and is settled. */
  lemma BaselineExactly(captured: Option<Spec>, runs: seq<Run>, rows: seq<Conclusion>, preflight: seq<PreflightRow>,
                        verified: bool)
    ensures var report := ReportOf(captured, runs, rows, preflight, verified);
            report.baseline <==>
            && verified && report.session.status in {SessionPassed, NotConfigured} && captured.Some?
            && exists i :: 0 <= i < |captured.value.identities|
                           && LetIn(captured.value, runs, rows, captured.value.identities[i].id)
  {
    SummaryShows(captured, runs, rows, preflight, verified);
    var spec := if captured.Some? then captured.value else EMPTY_SPEC;
    var session := SessionOf(spec, preflight, verified);
    if verified {
      forall i | 0 <= i < |spec.identities|
        ensures IsBaseline(AllDerived(spec, runs, rows, session, true)[i]) <==>
                SessionHolds(session) && LetIn(spec, runs, rows, spec.identities[i].id)
      {
        LetInExactly(spec, runs, rows, session, spec.identities[i].id);
      }
    }
    hide ReportOf, Derived, SessionOf, LetIn, IsBaseline;
  }

  lemma {:induction false} ExpectationsName(expected: seq<Expectation>, id: string)
    ensures forall i :: 0 <= i < |ExpectationsOf(expected, id)| ==> ExpectationsOf(expected, id)[i].identity == id
  {
    if expected != [] {
      var front, last := expected[..|expected| - 1], expected[|expected| - 1];
      ExpectationsName(front, id);
      assert ExpectationsOf(expected, id) == ExpectationsOf(front, id) + if last.identity == id then [last] else [];
    }
  }

  // ----- Totals -----

  lemma {:induction false} CountsCover(items: seq<Item>)
    ensures CountOf(items, Evaluated) + CountOf(items, Inconclusive) + CountOf(items, Missing)
            + CountOf(items, Skipped) == |items|
  {
    if items != [] { CountsCover(items[..|items| - 1]); }
  }

  lemma {:induction false} CountIsAll(items: seq<Item>, state: State)
    ensures CountOf(items, state) <= |items|
    ensures CountOf(items, state) == |items| <==> forall i :: 0 <= i < |items| ==> items[i].state == state
    ensures CountOf(items, state) > 0 <==> exists i :: 0 <= i < |items| && items[i].state == state
  {
    if items != [] {
      var front := items[..|items| - 1];
      CountIsAll(front, state);
      if CountOf(front, state) > 0 {
        var i :| 0 <= i < |front| && front[i].state == state;
        assert items[i].state == state;
      }
      assert forall i :: 0 <= i < |front| ==> front[i] == items[i];
    }
  }

  /** The four counts add up to the number of identities; any conclusion at all rests on a baseline; and
      a report is conclusive exactly when it lists no reason against itself. */
  lemma ReportAddsUp(captured: Option<Spec>, runs: seq<Run>, rows: seq<Conclusion>, preflight: seq<PreflightRow>,
                     verified: bool)
    ensures var report := ReportOf(captured, runs, rows, preflight, verified);
            && report.evaluated + report.inconclusive + report.missing + report.skipped == |report.items|
            && (report.status != NothingConclusive <==> report.evaluated > 0)
            && (report.status != NothingConclusive ==> report.baseline && verified && SessionHolds(report.session))
            && (report.status == Conclusive <==> report.reasons == {})
  {
    var report := ReportOf(captured, runs, rows, preflight, verified);
    CountsCover(report.items);
    CountIsAll(report.items, Evaluated);
    if report.evaluated > 0 {
      var i :| 0 <= i < |report.items| && report.items[i].state == Evaluated;
      EvaluatedIsSound(captured, runs, rows, preflight, verified, i);
    }
    ConclusiveReasons(captured, runs, rows, preflight, verified);
  }

  lemma ConclusiveReasons(captured: Option<Spec>, runs: seq<Run>, rows: seq<Conclusion>, preflight: seq<PreflightRow>,
                          verified: bool)
    ensures var report := ReportOf(captured, runs, rows, preflight, verified);
            report.status == Conclusive <==> report.reasons == {}
  {
    var report := ReportOf(captured, runs, rows, preflight, verified);
    CountIsAll(report.items, Evaluated);
    if report.status == Conclusive {
      EvaluatedIsSound(captured, runs, rows, preflight, verified, 0);
      assert OpenReasons(report.items) == {};
    }
    if report.status != Conclusive {
      if exists i :: 0 <= i < |report.items| && report.items[i].state != Evaluated {
        var i :| 0 <= i < |report.items| && report.items[i].state != Evaluated;
        assert report.items[i].reason in OpenReasons(report.items);
      } else if report.items == [] {
        assert "legitimate_baseline_missing" in report.reasons;
      } else {
        assert "unexpected_identity" in report.reasons;
      }
    }
  }

  /** The identity checked in exactly once, as itself, with the status it had to return. */
  predicate CheckedIn(rows: seq<PreflightRow>, id: string, code: int) {
    var mine := PreflightsOf(rows, id);
    |mine| == 1 && mine[0].status == Passed && mine[0].reason == "identity_verified" && mine[0].code == Some(code)
  }

  /** The identity checked in exactly once and was turned away for a reason that is known. */
  predicate TurnedAway(rows: seq<PreflightRow>, id: string) {
    var mine := PreflightsOf(rows, id);
    && |mine| == 1 && mine[0].status == Failed
    && mine[0].reason in {"credential_rejected", "identity_mismatch", "unexpected_status", "execution_error"}
  }

  lemma CheckExactly(rows: seq<PreflightRow>, id: string, code: int, verified: bool)
    ensures var check := CheckOf(PreflightsOf(rows, id), code, verified);
            && (check.status == CheckPassed <==> verified && CheckedIn(rows, id, code))
            && (check.status == CheckFailed <==> verified && TurnedAway(rows, id))
            && (check.status == CheckMissing <==> verified && PreflightsOf(rows, id) == [])
            && (check.status == CheckFailed ==> check.reason == PreflightsOf(rows, id)[0].reason)
  {
    hide PreflightsOf;
  }

  /** The identities that have to check in: the declared ones with a check, and the write verifier's reader. */
  predicate MustCheckIn(spec: Spec, id: string) {
    || (exists k :: 0 <= k < |spec.identities| && spec.identities[k].id == id && spec.identities[k].preflight.Some?)
    || (spec.oracle.Oracle? && spec.oracle.reader.Some? && spec.oracle.reader.value.id == id
        && spec.oracle.reader.value.preflight.Some?)
  }

  lemma {:induction false} ConfiguredExactly(declared: seq<Declared>, id: string)
    ensures id in Configured(declared) <==>
            exists k :: 0 <= k < |declared| && declared[k].id == id && declared[k].preflight.Some?
    ensures forall k :: 0 <= k < |declared| && declared[k].id == id && declared[k].preflight.Some?
                        && (forall n :: k < n < |declared| ==> declared[n].id != id || declared[n].preflight.None?) ==>
              id in Configured(declared) && Configured(declared)[id] == declared[k].preflight.value
  {
    if declared != [] {
      var front, last := declared[..|declared| - 1], declared[|declared| - 1];
      ConfiguredExactly(front, id);
      assert forall k :: 0 <= k < |front| ==> front[k] == declared[k];
      if last.id == id && last.preflight.Some? { assert declared[|front|] == last; }
    }
  }

  /** Exactly those are configured, with the last status declared for each. */
  lemma CheckInsExactly(spec: Spec, id: string)
    ensures id in Configured(spec.identities + ReaderOf(spec)) <==> MustCheckIn(spec, id)
  {
    var all := spec.identities + ReaderOf(spec);
    ConfiguredExactly(all, id);
    hide Configured;
    assert forall k :: 0 <= k < |spec.identities| ==> all[k] == spec.identities[k];
    if spec.oracle.Oracle? && spec.oracle.reader.Some? {
      assert all[|spec.identities|] == spec.oracle.reader.value;
    }
  }

  /** A session passes exactly when, on a verified snapshot, somebody had to check in, each who had to did, and
      nobody else reported; it is not configured exactly when nothing was declared or reported; and it failed
      exactly when, nobody else reporting, somebody was turned away. */
  lemma SessionSound(spec: Spec, rows: seq<PreflightRow>, verified: bool)
    ensures var session := SessionOf(spec, rows, verified);
            var configured := Configured(spec.identities + ReaderOf(spec));
            var nobodyElse := forall i :: 0 <= i < |rows| ==> rows[i].identity in configured;
            && (session.status == SessionPassed <==>
                && verified && configured != map[] && nobodyElse
                && forall id :: id in configured ==> CheckedIn(rows, id, configured[id]))
            && (session.status == NotConfigured <==> configured == map[] && rows == [])
            && (session.status == SessionFailed <==>
                verified && nobodyElse && exists id :: id in configured && TurnedAway(rows, id))
  {
    var session := SessionOf(spec, rows, verified);
    var configured := Configured(spec.identities + ReaderOf(spec));
    NobodyElse(configured, rows);
    forall id | id in configured
      ensures session.checks[id].status == CheckPassed <==> verified && CheckedIn(rows, id, configured[id])
      ensures session.checks[id].status == CheckFailed <==> verified && TurnedAway(rows, id)
    {
      CheckExactly(rows, id, configured[id], verified);
    }
    hide CheckOf, CheckedIn, TurnedAway, Configured, PreflightsOf;
    if configured != map[] { var id :| id in configured; }
    assert forall id :: id in session.checks <==> id in configured;
    NotBoth(rows, configured);
  }

  lemma NotBoth(rows: seq<PreflightRow>, configured: map<string, int>)
    ensures forall id :: id in configured && CheckedIn(rows, id, configured[id]) ==> !TurnedAway(rows, id)
  {
    hide PreflightsOf;
  }

  lemma {:induction false} NobodyElse(configured: map<string, int>, rows: seq<PreflightRow>)
    ensures Undeclared(configured, rows) == 0 <==> forall i :: 0 <= i < |rows| ==> rows[i].identity in configured
  {
    if rows != [] {
      var front := rows[..|rows| - 1];
      NobodyElse(configured, front);
      assert forall i :: 0 <= i < |front| ==> front[i] == rows[i];
    }
  }

  // ----- The whole report, said without its counts -----

  lemma {:induction false} UnexpectedCounts(spec: Spec, runs: seq<Run>)
    ensures Unexpected(spec, runs) == 0 <==> forall k :: 0 <= k < |runs| ==> IsDeclared(spec, runs[k].identity)
  {
    hide IsDeclared;
    if runs != [] {
      UnexpectedCounts(spec, runs[..|runs| - 1]);
      assert forall k :: 0 <= k < |runs| - 1 ==> runs[..|runs| - 1][k] == runs[k];
    }
  }

  /** A report is conclusive exactly when it has items, each of them is evaluated, and every run was of a declared
      identity; short of that it is partial exactly when some item is. */
  lemma ReportExactly(captured: Option<Spec>, runs: seq<Run>, rows: seq<Conclusion>, preflight: seq<PreflightRow>,
                      verified: bool)
    ensures var report, spec := ReportOf(captured, runs, rows, preflight, verified),
                                if captured.Some? then captured.value else EMPTY_SPEC;
            var all := forall i :: 0 <= i < |report.items| ==> report.items[i].state == Evaluated;
            var some := exists i :: 0 <= i < |report.items| && report.items[i].state == Evaluated;
            && |report.items| == |spec.identities|
            && (report.status == Conclusive <==>
                report.items != [] && all
                && forall k :: 0 <= k < |runs| ==>
                     exists n :: 0 <= n < |spec.identities| && spec.identities[n].id == runs[k].identity)
            && (report.status == Partial <==> some && report.status != Conclusive)
  {
    var spec := if captured.Some? then captured.value else EMPTY_SPEC;
    UnexpectedCounts(spec, runs);
    CountIsAll(ReportOf(captured, runs, rows, preflight, verified).items, Evaluated);
    hide CountOf, Unexpected, IsDeclared, Derived, SessionOf, OpenReasons, Flag, HasBaseline;
  }

  /** What is noted of an identity's credentials: whether they passed a check, were not checked, or there are none;
      and, where a request that presented them got a 401, whether that can be told from their rejection. */
  predicate NotedAs(spec: Spec, runs: seq<Run>, session: Session, verified: bool, id: string, note: CredentialStatus) {
    var refused := |RunsOf(runs, id)| == 1 && RunsOf(runs, id)[0].code == Some(401);
    var checked, passed := id in session.checks, id in session.checks && session.checks[id].status == CheckPassed;
    match note
    case NotRecorded => !verified
    case PassedThen401 => verified && Presents(spec, id) && refused && passed
    case Unverified401 => verified && Presents(spec, id) && refused && !passed
    case PreflightPassed => verified && !(Presents(spec, id) && refused) && passed
    case PreflightFailed => verified && !(Presents(spec, id) && refused) && checked && !passed
    case NotChecked => verified && Presents(spec, id) && !refused && !checked
    case AnonymousIdentity => verified && !Presents(spec, id) && !checked
  }

  /** The same for the write verifier's reader, whose request is never judged by its status. */
  predicate ReaderNotedAs(spec: Spec, session: Session, verified: bool, note: CredentialStatus) {
    var reader := if spec.oracle.Oracle? then spec.oracle.reader else None;
    var checked := reader.Some? && reader.value.id in session.checks;
    var passed := checked && session.checks[reader.value.id].status == CheckPassed;
    match note
    case NotRecorded => !verified
    case PreflightPassed => verified && passed
    case PreflightFailed => verified && checked && !passed
    case AnonymousIdentity => verified && reader.Some? && !checked && reader.value.credential == StaticHeader(false)
    case NotChecked => verified && !checked && !(reader.Some? && reader.value.credential == StaticHeader(false))
    case PassedThen401 | Unverified401 => false
  }

  lemma ReaderNoted(spec: Spec, runs: seq<Run>, session: Session, verified: bool, item: Item)
    ensures var after := CredentialItem(spec, runs, session, verified, item);
            after.evidence.Some? ==> ReaderNotedAs(spec, session, verified, after.evidence.value.readerCredential)
  {
    hide CredentialOf, SendsCredentials, Refused401;
  }

  /** The note on an item is the one that is true of it, and so is the one on its evidence. */
  lemma NotesExactly(captured: Option<Spec>, runs: seq<Run>, rows: seq<Conclusion>, preflight: seq<PreflightRow>,
                     verified: bool, i: nat)
    requires captured.Some? && i < |captured.value.identities|
    ensures var report := ReportOf(captured, runs, rows, preflight, verified);
            && i < |report.items|
            && NotedAs(captured.value, runs, report.session, verified, captured.value.identities[i].id,
                       report.items[i].credential)
            && (report.items[i].evidence.Some? ==>
                  ReaderNotedAs(captured.value, report.session, verified,
                                report.items[i].evidence.value.readerCredential))
  {
    var spec, id := captured.value, captured.value.identities[i].id;
    SummaryShows(captured, runs, rows, preflight, verified);
    DerivedNoted(spec, runs, rows, SessionOf(spec, preflight, verified), verified, id);
    hide ReportOf, Derived, SessionOf, HasBaseline, NotedAs, ReaderNotedAs;
  }

  lemma DerivedNoted(spec: Spec, runs: seq<Run>, rows: seq<Conclusion>, session: Session, verified: bool, id: string)
    ensures NotedAs(spec, runs, session, verified, id, Derived(spec, runs, rows, session, verified, id).credential)
    ensures var item := Derived(spec, runs, rows, session, verified, id);
            item.evidence.Some? ==> ReaderNotedAs(spec, session, verified, item.evidence.value.readerCredential)
  {
    ReaderNoted(spec, runs, session, verified, SemanticItem(spec, runs, rows, verified, HttpItem(spec, runs, id)));
    SemanticKeepsIdentity(spec, runs, rows, verified, id);
    PresentsExactly(spec, id);
    hide HttpItem, SemanticItem, ReaderStatus, Presents, SendsCredentials, CredentialOf, RunsOf, ReaderNotedAs;
  }

  /** No conclusion was reported for the identity, or one that names the decision reviewed for it. */
  predicate Consistent(spec: Spec, rows: seq<Conclusion>, id: string) {
    var mine := ConclusionsOf(rows, id);
    mine == [] || (|mine| == 1 && mine[0].expected == DecisionOf(spec, id))
  }

  /** An identity is skipped exactly when it has no single review that says allow or deny, and no conclusion at odds
      with that was reported for it. */
  lemma SkippedExactly(captured: Option<Spec>, runs: seq<Run>, rows: seq<Conclusion>, preflight: seq<PreflightRow>,
                       verified: bool, i: nat)
    requires captured.Some? && i < |captured.value.identities|
    ensures var report := ReportOf(captured, runs, rows, preflight, verified);
            var expected := ExpectationsOf(captured.value.expected, captured.value.identities[i].id);
            i < |report.items|
            && (report.items[i].state == Skipped <==>
                (|expected| != 1 || expected[0].decision !in {Allow, Deny})
                && Consistent(captured.value, rows, captured.value.identities[i].id))
  {
    var spec := captured.value;
    var id := spec.identities[i].id;
    SummaryShows(captured, runs, rows, preflight, verified);
    SkipsEarly(spec, runs, id);
    SkipsThrough(spec, runs, rows, SessionOf(spec, preflight, verified), verified, id);
    hide ReportOf, Derived, SessionOf, HttpItem, ExpectationsOf, HasBaseline, Consistent;
  }

  lemma SkipsEarly(spec: Spec, runs: seq<Run>, id: string)
    ensures var expected := ExpectationsOf(spec.expected, id);
            HttpItem(spec, runs, id).state == Skipped <==> |expected| != 1 || expected[0].decision !in {Allow, Deny}
  {
    hide ExpectationsOf, RunsOf;
  }

  lemma SkipsThrough(spec: Spec, runs: seq<Run>, rows: seq<Conclusion>, session: Session, verified: bool, id: string)
    ensures Derived(spec, runs, rows, session, verified, id).state == Skipped <==>
            HttpItem(spec, runs, id).state == Skipped && Consistent(spec, rows, id)
  {
    HttpSound(spec, runs, id);
    SemanticSkips(spec, runs, rows, verified, HttpItem(spec, runs, id));
    DenialsAreReviewed(spec, runs, id);
    SemanticKeepsExpected(spec, runs, rows, verified, HttpItem(spec, runs, id));
    hide HttpItem, SemanticItem, ReaderStatus, CredentialOf, Refused401, DecisionOf, ConclusionsOf;
  }

  lemma DenialsAreReviewed(spec: Spec, runs: seq<Run>, id: string)
    ensures HttpItem(spec, runs, id).state == Skipped ==> HttpItem(spec, runs, id).expected != Deny
  {
    hide RunsOf;
  }

  lemma SemanticSkips(spec: Spec, runs: seq<Run>, rows: seq<Conclusion>, verified: bool, item: Item)
    ensures var mine := ConclusionsOf(rows, item.identity);
            SemanticItem(spec, runs, rows, verified, item).state == Skipped <==>
            item.state == Skipped && (mine == [] || (|mine| == 1 && mine[0].expected == item.expected))
  {
    hide ConclusionHolds, Protected, IndexFits, EvidenceFor, ConclusionsOf, RunsOf;
  }

  // ----- The derivation as the program runs it: passes over the items, in place -----

  method Grouped(runs: seq<Run>) returns (reported: map<string, seq<Run>>)
    ensures forall id :: RunsOf(runs, id) == if id in reported then reported[id] else []
  {
    reported := map[];
    for i := 0 to |runs|
      invariant forall id :: RunsOf(runs[..i], id) == if id in reported then reported[id] else []
    {
      assert runs[..i + 1][..i] == runs[..i];
      var id := runs[i].identity;
      reported := reported[id := (if id in reported then reported[id] else []) + [runs[i]]];
    }
    assert runs[..|runs|] == runs;
  }

  method HttpPass(spec: Spec, runs: seq<Run>) returns (items: array<Item>)
    ensures fresh(items) && items.Length == |spec.identities|
    ensures forall k :: 0 <= k < items.Length ==> items[k] == HttpItem(spec, runs, spec.identities[k].id)
  {
    hide SaysAllow, SaysDeny, RunsOf, DecisionOf;
    var reported := Grouped(runs);
    var blank := Item("", Unknown, SawOther, Skipped, "", None, None, NotRecorded);
    items := new Item[|spec.identities|](_ => blank);
    for i := 0 to items.Length
      invariant forall k :: 0 <= k < i ==> items[k] == HttpItem(spec, runs, spec.identities[k].id)
    {
      var id := spec.identities[i].id;
      var decision := DecisionOf(spec, id);
      var rows := if id in reported then reported[id] else [];
      var state, reason := Inconclusive, "ambiguous_response";
      if decision == Skip || decision == Unknown {
        state, reason := Skipped, "no_reviewed_expectation";
      } else if rows == [] {
        state, reason := Missing, "execution_missing";
      } else if |rows| != 1 {
        reason := "duplicate_execution";
      } else {
        var allow, deny := SaysAllow(rows[0]), SaysDeny(spec, rows[0]);
        if rows[0].failed || !(allow || deny) {
          reason := if rows[0].failed then "execution_error" else "ambiguous_response";
        } else if decision == Allow && !allow {
          reason := "legitimate_baseline_denied";
        } else {
          state, reason := Evaluated, "reported_allow_or_deny";
        }
      }
      var seen := if |rows| == 1 then rows[0].seen else SawOther;
      items[i] := Item(id, decision, seen, state, reason, None, None, NotRecorded);
    }
  }

  /** Noting a conclusion on an item changes nothing the conclusion is checked against. */
  lemma NotingIsNeutral(spec: Spec, item: Item, noted: Item, row: Conclusion, run: Run)
    requires noted == item.(conclusion := noted.conclusion, evidence := noted.evidence)
    ensures ConclusionHolds(spec, noted, row, run) == ConclusionHolds(spec, item, row, run)
  {
    hide AssertionHolds, WriteHolds, Protected;
  }

  method ApplySemantics(spec: Spec, items: array<Item>, runs: seq<Run>, rows: seq<Conclusion>, verified: bool)
    modifies items
    ensures forall k :: 0 <= k < items.Length ==> items[k] == SemanticItem(spec, runs, rows, verified, old(items[k]))
  {
    hide Protected, ConclusionHolds, IndexFits, EvidenceFor, SourceReason, ConclusionsOf, RunsOf;
    for i := 0 to items.Length
      invariant forall k :: 0 <= k < i ==> items[k] == SemanticItem(spec, runs, rows, verified, old(items[k]))
      invariant forall k :: i <= k < items.Length ==> items[k] == old(items[k])
    {
      var id := items[i].identity;
      var mine := ConclusionsOf(rows, id);
      if mine == [] {
        if Protected(spec, id) && items[i].state != Skipped {
          items[i] := Settle(items[i], Inconclusive, "semantic_assessment_missing");
        }
        continue;
      }
      if |mine| != 1 || mine[0].expected != items[i].expected {
        items[i] := Settle(items[i], Inconclusive, "semantic_assessment_inconsistent");
        continue;
      }
      var row, actual := mine[0], RunsOf(runs, id);
      items[i] := items[i].(conclusion := Some(row));
      items[i] := items[i].(evidence := EvidenceFor(spec, row));
      if |actual| == 1 { NotingIsNeutral(spec, old(items[i]), items[i], row, actual[0]); }
      if items[i].state == Skipped { continue; }
      if !verified {
        items[i] := Settle(items[i], Inconclusive, "case_snapshot_unverified");
      } else if row.verdict != Allowed && row.verdict != Denied {
        items[i] := Settle(items[i], Inconclusive, row.reason);
      } else if |actual| != 1 || !IndexFits(runs, row, id) || !ConclusionHolds(spec, items[i], row, actual[0]) {
        items[i] := Settle(items[i], Inconclusive, "semantic_assessment_inconsistent");
      } else {
        items[i] := Settle(items[i], Evaluated, SourceReason(row.source));
        if items[i].expected == Allow && row.verdict != Allowed {
          items[i] := Settle(items[i], Inconclusive, "legitimate_baseline_denied");
        }
      }
    }
  }

  method CredentialPass(spec: Spec, items: array<Item>, runs: seq<Run>, session: Session, verified: bool)
    modifies items
    ensures forall k :: 0 <= k < items.Length ==>
                          items[k] == CredentialItem(spec, runs, session, verified, old(items[k]))
  {
    hide CheckedAs, Refused401, ReaderStatus, SendsCredentials, CredentialOf;
    for i := 0 to items.Length
      invariant forall k :: 0 <= k < i ==> items[k] == CredentialItem(spec, runs, session, verified, old(items[k]))
      invariant forall k :: i <= k < items.Length ==> items[k] == old(items[k])
    {
      var id := items[i].identity;
      var sends := SendsCredentials(CredentialOf(spec, id));
      var status := CheckedAs(session, id, if sends then NotChecked else AnonymousIdentity);
      if sends && Refused401(runs, id) { status := if status == PreflightPassed then PassedThen401 else Unverified401; }
      items[i] := items[i].(credential := if verified then status else NotRecorded);
      if items[i].evidence.Some? {
        var evidence := items[i].evidence.value.(readerCredential := ReaderStatus(spec, session, verified));
        items[i] := items[i].(evidence := Some(evidence));
      }
      if items[i].expected == Deny && Refused401(runs, id) && sends && !spec.unauthorizedIsDenial
         && !(items[i].conclusion.Some? && items[i].conclusion.value.verdict == Allowed)
      {
        items[i] := Settle(items[i], Inconclusive, "credential_rejected");
      }
    }
  }

  /** The snapshot and session passes demote; the baseline is looked for only after them. */
  method DemotePass(items: array<Item>, session: Session, verified: bool) returns (baseline: bool)
    modifies items
    ensures forall k :: 0 <= k < items.Length ==>
                          items[k] == PreflightItem(session, SnapshotItem(verified, old(items[k])))
    ensures baseline == HasBaseline(verified, items[..])
  {
    if !verified {
      for i := 0 to items.Length
        invariant forall k :: 0 <= k < i ==> items[k] == SnapshotItem(verified, old(items[k]))
        invariant forall k :: i <= k < items.Length ==> items[k] == old(items[k])
      {
        if items[i].state == Evaluated { items[i] := Settle(items[i], Inconclusive, "case_snapshot_unverified"); }
      }
    }
    ghost var middle := items[..];
    assert forall k :: 0 <= k < items.Length ==> middle[k] == SnapshotItem(verified, old(items[k]));
    if !SessionHolds(session) {
      for i := 0 to items.Length
        invariant forall k :: 0 <= k < i ==> items[k] == PreflightItem(session, middle[k])
        invariant forall k :: i <= k < items.Length ==> items[k] == middle[k]
      {
        if items[i].state != Skipped {
          items[i] := Settle(items[i], Inconclusive, "identity_preflight_not_established");
        }
      }
    }
    baseline := verified && exists k :: 0 <= k < items.Length && IsBaseline(items[k]);
  }

  method BaselinePass(items: array<Item>, baseline: bool)
    modifies items
    ensures items[..] == Concluded(baseline, old(items[..]))
  {
    if !baseline {
      for i := 0 to items.Length
        invariant forall k :: 0 <= k < i ==> items[k] == BaselineItem(baseline, old(items[k]))
        invariant forall k :: i <= k < items.Length ==> items[k] == old(items[k])
      {
        if items[i].state == Evaluated { items[i] := Settle(items[i], Inconclusive, "legitimate_baseline_missing"); }
      }
    }
  }

  method CollectConfigured(declarations: seq<Declared>) returns (configured: map<string, int>)
    ensures configured == Configured(declarations)
  {
    configured := map[];
    for i := 0 to |declarations|
      invariant configured == Configured(declarations[..i])
    {
      assert declarations[..i + 1][..i] == declarations[..i];
      if declarations[i].preflight.Some? {
        configured := configured[declarations[i].id := declarations[i].preflight.value];
      }
    }
    assert declarations[..|declarations|] == declarations;
  }

  method CountUndeclared(configured: map<string, int>, rows: seq<PreflightRow>) returns (unexpected: nat)
    ensures unexpected == Undeclared(configured, rows)
  {
    unexpected := 0;
    for i := 0 to |rows|
      invariant unexpected == Undeclared(configured, rows[..i])
    {
      assert rows[..i + 1][..i] == rows[..i];
      if rows[i].identity !in configured { unexpected := unexpected + 1; }
    }
    assert rows[..|rows|] == rows;
  }

  method AssessPreflight(spec: Spec, rows: seq<PreflightRow>, verified: bool) returns (session: Session)
    ensures session == SessionOf(spec, rows, verified)
  {
    hide Configured, Undeclared, CheckOf;
    var configured := CollectConfigured(spec.identities + ReaderOf(spec));
    var unexpected := CountUndeclared(configured, rows);
    var checks := Checks(configured, rows, verified);
    var status := SessionInconclusive;
    if configured == map[] {
      status := NotConfigured;
    } else if (forall id :: id in checks ==> checks[id].status == CheckPassed) && unexpected == 0 {
      status := SessionPassed;
    } else if exists id :: id in checks && checks[id].status == CheckFailed {
      status := SessionFailed;
    }
    if unexpected != 0 { status := SessionInconclusive; }
    return Session(status, checks, unexpected);
  }

  /** The passes, in order, over one list of items; what was found is recorded beside the report, never in it. */
  method Assess(captured: Option<Spec>, runs: seq<Run>, candidates: nat, rows: seq<Conclusion>,
                preflight: seq<PreflightRow>,
                verified: bool)
    returns (assessed: Record)
    ensures assessed.report == ReportOf(captured, runs, rows, preflight, verified) && assessed.candidates == candidates
    ensures assessed.judged == if captured == Some(EMPTY_SPEC) then None else captured
    ensures assessed.snapshotVerified <==> assessed.judged.Some? && verified
  {
    hide HttpItem, SemanticItem, CredentialItem, SessionOf, Summary;
    var spec := if captured.Some? then captured.value else EMPTY_SPEC;
    var session := AssessPreflight(spec, preflight, verified);
    var items := HttpPass(spec, runs);
    ApplySemantics(spec, items, runs, rows, verified);
    CredentialPass(spec, items, runs, session, verified);
    var baseline := DemotePass(items, session, verified);
    assert items[..] == AllDerived(spec, runs, rows, session, verified);
    BaselinePass(items, baseline);
    var judged := if spec == EMPTY_SPEC then None else Some(spec);
    return Record(Summary(captured, runs, session, verified, baseline, items[..]), candidates, judged, judged.Some?
        && verified);
  }
}
