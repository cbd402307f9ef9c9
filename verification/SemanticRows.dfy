/** Reducing a reported semantic row to the closed vocabulary an assessment may read. */
module SemanticRows {
  import opened Wrappers
  import opened Assessments

  /** A decoded field; an absent one, a boolean, a null or a fraction is `Odd`. */
  datatype Value = Text(text: string) | Number(n: int) | List(items: seq<Value>) | Odd

  /** The fields looked up in a reported row; what else it holds is never read. */
  datatype RawRow = RawRow(identity: Value, expected: Value, decision: Value, source: Value, reason: Value,
                           credential: Value,
                           write: Value, matched: Value, index: Value, verification: Option<RawEvidence>)

  datatype RawEvidence = RawEvidence(strategy: Value, environment: Value, reader: Value, before: Value, after: Value,
                                     resetStatus: Value, readerCredential: Value)

  const REASONS: set<string> := {
    "status_only", "ambiguous_http_outcome", "execution_error", "no_expectation", "explicit_skip", "assertion_matched",
    "no_assertion_matched", "conflicting_assertions", "invalid_or_unsupported_json", "credential_rejected",
    "state_changed", "state_unchanged", "verifier_read_failed", "verifier_denied", "verifier_value_unavailable",
    "verifier_baseline_missing", "state_changing_concurrently", "target_value_already_present",
    "state_changed_unexpectedly", "verifier_unexpected_status", "write_execution_error", "no_positive_control",
    "positive_control_failed", "write_completion_unconfirmed", "write_environment_unverified",
    "verifier_reset_failed", "reset_baseline_mismatch", "execution_cancelled", "identity_preflight_failed"
  }

  const UNRECOGNIZED := "unrecognized_assessment_reason"

  // ----- Names of the enumerated fields -----

  function DecisionName(d: Decision): string {
    match d case Allow => "allow" case Deny => "deny" case Skip => "skip" case Unknown => "unknown"
  }

  function VerdictName(v: Verdict): string {
    match v
    case Allowed => "allowed"
    case Denied => "denied"
    case Undecided => "inconclusive"
    case NotAttempted => "skipped"
  }

  function SourceName(s: Source): string {
    match s
    case NoSource => "none" case HttpStatus => "http_status"
    case ResponseAssertion => "response_assertion" case WriteVerification => "write_verification"
  }

  function CredentialName(c: CredentialStatus): string {
    match c
    case AnonymousIdentity => "anonymous_identity" case NotChecked => "not_checked"
    case PreflightPassed => "preflight_passed" case PreflightFailed => "preflight_failed"
    case PassedThen401 => "preflight_passed_resource_401" case Unverified401 => "resource_401_unverified"
    case NotRecorded => "not_recorded"
  }

  function WriteName(w: WriteStatus): string {
    match w
    case WriteNotConfigured => "not_configured"
    case WriteNotApplied => "not_applied"
    case WriteInconclusive => "inconclusive"
    case VerifiedEffect => "verified_effect"
    case VerifiedNoEffect => "verified_no_effect"
    case WriteNotRecorded => "not_recorded"
  }

  function StrategyName(s: Strategy): string {
    match s
    case Changed => "changed" case Created => "created" case Deleted => "deleted"
    case LegacyChange => "legacy_change" case UnknownStrategy => "unknown"
  }

  function EnvironmentName(e: Environment): string {
    match e
    case SynchronousIsolated => "synchronous_isolated"
    case LegacyEnvironment => "legacy"
    case UnknownEnvironment => "unknown"
  }

  // ----- Reading one field -----

  function ReadDecision(v: Value): Decision {
    if v == Text("allow") then Allow else if v == Text("deny") then Deny
    else if v == Text("skip") then Skip else Unknown
  }

  function ReadVerdict(v: Value): Verdict {
    if v == Text("allowed") then Allowed else if v == Text("denied") then Denied
    else if v == Text("skipped") then NotAttempted else Undecided
  }

  function ReadSource(v: Value): Source {
    if v == Text("http_status") then HttpStatus else if v == Text("response_assertion") then ResponseAssertion
    else if v == Text("write_verification") then WriteVerification else NoSource
  }

  function ReadReason(v: Value): string {
    if v.Text? && v.text in REASONS then v.text else UNRECOGNIZED
  }

  function ReadCredential(v: Value): CredentialStatus {
    if v == Text("anonymous_identity") then AnonymousIdentity else if v == Text("not_checked") then NotChecked
    else if v == Text("preflight_passed") then PreflightPassed
    else if v == Text("preflight_failed") then PreflightFailed
    else if v == Text("preflight_passed_resource_401") then PassedThen401
    else if v == Text("resource_401_unverified") then Unverified401 else NotRecorded
  }

  function ReadWrite(v: Value): WriteStatus {
    if v == Text("not_configured") then WriteNotConfigured else if v == Text("not_applied") then WriteNotApplied
    else if v == Text("inconclusive") then WriteInconclusive else if v == Text("verified_effect") then VerifiedEffect
    else if v == Text("verified_no_effect") then VerifiedNoEffect else WriteNotRecorded
  }

  function ReadStrategy(v: Value): Strategy {
    if v == Text("changed") then Changed else if v == Text("created") then Created
    else if v == Text("deleted") then Deleted
    else if v == Text("legacy_change") then LegacyChange else UnknownStrategy
  }

  function ReadEnvironment(v: Value): Environment {
    if v == Text("synchronous_isolated") then SynchronousIsolated else if v == Text("legacy") then LegacyEnvironment
    else UnknownEnvironment
  }

  function ReadIdentity(v: Value): string {
    if v.Text? && 0 < |v.text| <= 200 then v.text else ""
  }

  predicate NumbersWithin(items: seq<Value>, limit: int) {
    forall v :: v in items ==> v.Number? && 0 <= v.n < limit
  }

  function Numbers(items: seq<Value>): (r: seq<nat>)
    requires forall v :: v in items ==> v.Number? && v.n >= 0
    ensures |r| == |items| && forall i :: 0 <= i < |r| ==> r[i] == items[i].n
  {
    seq(|items|, i requires 0 <= i < |items| => assert items[i] in items; items[i].n)
  }

  function ReadNumbers(v: Value, most: nat, limit: int): (r: seq<nat>)
    ensures |r| <= most && forall n :: n in r ==> n < limit
  {
    if v.List? && |v.items| <= most && NumbersWithin(v.items, limit) then Numbers(v.items) else []
  }

  function ReadStatus(v: Value): int {
    if v.Number? && 0 <= v.n <= 599 then v.n else 0
  }

  function SafeEvidence(raw: RawEvidence): WriteEvidence {
    WriteEvidence(ReadStrategy(raw.strategy), ReadEnvironment(raw.environment), ReadIdentity(raw.reader),
                  ReadNumbers(raw.before, 2, 600), ReadStatus(raw.after), ReadStatus(raw.resetStatus),
                  ReadCredential(raw.readerCredential))
  }

  /** Keep the declared fields, each inside its vocabulary; drop everything else. */
  function SafeRow(raw: RawRow): Conclusion {
    Conclusion(ReadIdentity(raw.identity), ReadDecision(raw.expected), ReadVerdict(raw.decision),
               ReadSource(raw.source), ReadReason(raw.reason), ReadCredential(raw.credential), ReadWrite(raw.write),
               ReadNumbers(raw.matched, 32, 32),
               if raw.index.Number? && 0 <= raw.index.n < 100 then Some(raw.index.n) else None,
               if raw.verification.Some? then Some(SafeEvidence(raw.verification.value)) else None)
  }

  // ----- Writing a sanitized row back -----

  function NumberList(ns: seq<int>): Value {
    List(seq(|ns|, i requires 0 <= i < |ns| => Number(ns[i])))
  }

  function EvidenceFields(e: WriteEvidence): RawEvidence {
    RawEvidence(Text(StrategyName(e.strategy)), Text(EnvironmentName(e.environment)), Text(e.reader),
                NumberList(e.before), Number(e.after), Number(e.resetStatus),
                Text(CredentialName(e.readerCredential)))
  }

  function RowFields(c: Conclusion): RawRow {
    RawRow(Text(c.identity), Text(DecisionName(c.expected)), Text(VerdictName(c.verdict)), Text(SourceName(c.source)),
           Text(c.reason), Text(CredentialName(c.credential)), Text(WriteName(c.write)), NumberList(c.matched),
           if c.index.Some? then Number(c.index.value) else Odd,
           if c.evidence.Some? then Some(EvidenceFields(c.evidence.value)) else None)
  }

  predicate CleanEvidence(e: WriteEvidence) {
    && |e.reader| <= 200 && |e.before| <= 2 && (forall s :: s in e.before ==> 0 <= s <= 599)
    && 0 <= e.after <= 599 && 0 <= e.resetStatus <= 599
  }

  /** Nothing free-form, nothing unbounded. */
  predicate Clean(c: Conclusion) {
    && |c.identity| <= 200 && (c.reason in REASONS || c.reason == UNRECOGNIZED)
    && |c.matched| <= 32 && (forall i :: i in c.matched ==> i < 32)
    && (c.index.Some? ==> c.index.value < 100) && (c.evidence.Some? ==> CleanEvidence(c.evidence.value))
  }

  /** Whatever was reported, what is kept is clean. */
  lemma SafeIsClean(raw: RawRow)
    ensures Clean(SafeRow(raw))
  {
  }

  lemma NumbersReadBack(ns: seq<int>, most: nat, limit: int)
    requires |ns| <= most && forall n :: n in ns ==> 0 <= n < limit
    ensures ReadNumbers(NumberList(ns), most, limit) == ns
  {
    var v := NumberList(ns);
    forall x | x in v.items ensures x.Number? && 0 <= x.n < limit {
      var i :| 0 <= i < |v.items| && v.items[i] == x;
      assert ns[i] in ns;
    }
  }

  lemma VerdictNamesReadBack(d: Decision, v: Verdict, s: Source)
    ensures ReadDecision(Text(DecisionName(d))) == d
    ensures ReadVerdict(Text(VerdictName(v))) == v
    ensures ReadSource(Text(SourceName(s))) == s
  {
  }

  lemma StatusNamesReadBack(c: CredentialStatus, w: WriteStatus)
    ensures ReadCredential(Text(CredentialName(c))) == c
    ensures ReadWrite(Text(WriteName(w))) == w
  {
  }

  lemma WriteNamesReadBack(g: Strategy, e: Environment)
    ensures ReadStrategy(Text(StrategyName(g))) == g
    ensures ReadEnvironment(Text(EnvironmentName(e))) == e
  {
  }

  lemma EvidenceReadsBack(e: WriteEvidence)
    requires CleanEvidence(e)
    ensures SafeEvidence(EvidenceFields(e)) == e
  {
    NumbersReadBack(e.before, 2, 600);
    StatusNamesReadBack(e.readerCredential, WriteNotRecorded);
    WriteNamesReadBack(e.strategy, e.environment);
  }

  /** Sanitizing a clean row changes nothing, so sanitizing twice is sanitizing once. */
  lemma SanitizingIsIdempotent(c: Conclusion, raw: RawRow)
    ensures Clean(c) ==> SafeRow(RowFields(c)) == c
    ensures SafeRow(RowFields(SafeRow(raw))) == SafeRow(raw)
  {
    if Clean(c) { CleanReadsBack(c); }
    SafeIsClean(raw);
    CleanReadsBack(SafeRow(raw));
  }

  lemma CleanReadsBack(c: Conclusion)
    requires Clean(c)
    ensures SafeRow(RowFields(c)) == c
  {
    hide ReadDecision, ReadVerdict, ReadSource, ReadCredential, ReadWrite, ReadNumbers, NumberList, SafeEvidence;
    hide EvidenceFields;
    NumbersReadBack(c.matched, 32, 32);
    VerdictNamesReadBack(c.expected, c.verdict, c.source);
    StatusNamesReadBack(c.credential, c.write);
    if c.evidence.Some? { EvidenceReadsBack(c.evidence.value); }
  }
}
