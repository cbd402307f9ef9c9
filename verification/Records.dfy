/** The rows of the control plane, its requests, and the reasons it refuses.

  Identifiers, digests and principals are compared only for equality, so they are integers here;
  a digest of a record is the record itself, which makes digests injective by construction.
  Instants are integers in microseconds.
 */
module Records {
  import opened Wrappers

  type EngagementId = int
  type JobId = int
  type ApprovalId = int
  type ContractId = int
  type AuthorizationId = int
  type ScopeId = int
  type CaseId = int
  type UserId = int
  type Digest = int
  type Instant = int

  const SECOND := 1_000_000
  /** Length of an execution lease. */
  const LEASE := 10 * SECOND
  const MAX_RESULT_BYTES := 512_000

  type Seconds = s: nat | 1 <= s <= 86400 witness 1
  type Limit = n: nat | 1 <= n witness 1

  // ----- Engagements -----

  datatype ScopeRow = ScopeRow(value: string, kind: string, excluded: bool)

  /** The permission fields of an authorization row; its free-text notes are kept apart. */
  datatype Grant = Grant(status: string, permits: string, authorizedBy: string, authorizedAt: Option<Instant>,
                         reference: string, windowStart: Option<Instant>, windowEnd: Option<Instant>)

  datatype Limits = Limits(concurrency: Option<Limit>, targets: Option<Limit>, duration: Option<Limit>)

  /** Every fact a permission can depend on: what one authority revision stands for. */
  datatype Authority = Authority(kind: string, status: string, startsAt: Option<Instant>, endsAt: Option<Instant>,
                                 maxRate: Option<int>, scope: map<ScopeId, ScopeRow>,
                                 grants: map<AuthorizationId, Grant>, stopWork: bool, limits: Limits)

  /** A stored test case: its digest, its own id, and the request origins a budget would charge
      (`None` when the case cannot be reduced to origins). */
  datatype CaseSpec = CaseSpec(hash: Digest, ref: int, origins: Option<set<int>>)

  datatype Engagement = Engagement(owner: UserId, authority: Authority, notes: map<AuthorizationId, string>,
                                   cases: map<CaseId, CaseSpec>, revision: nat,
                                   targetsSpent: nat, durationAllocated: nat)

  // ----- Jobs and executions -----

  datatype Tool = Gate | OtherTool

  datatype Status = Pending | Running | Done | Failed

  datatype Job = Job(engagement: EngagementId, tool: Tool, testCase: Option<CaseId>, dependsOn: Option<JobId>,
                     status: Status, contractRequired: bool, approval: Option<ApprovalId>,
                     snapshot: Option<CaseSpec>, startedAt: Option<Instant>, completedAt: Option<Instant>)

  datatype Outcome = Completed | Unsuccessful | Cancelled

  datatype Phase = Active | CancelRequested | Uncertain | Ended(outcome: Outcome)

  /** What a caller must present, in full, to act on an execution. */
  datatype Holder = Holder(owner: UserId, runner: int, origin: int, principal: int, token: int)

  datatype Execution = Execution(holder: Holder, expiresAt: Instant, phase: Phase, reserved: bool,
                                 targetCharge: nat, seconds: nat)

  datatype TargetBinding = TargetBinding(caseHash: Digest, origins: set<int>)

  datatype Control = Control(holder: Holder, concurrency: bool, binding: Option<TargetBinding>,
                             seconds: Option<Seconds>)

  datatype FinishOutcome = Definite(outcome: Outcome) | Indefinite

  // ----- Managed permission -----

  /** The context an operator signs. Its `authority` is every fact a revision stands for: more than the program
      digests (one grant, the scope rows, type, status and limits), but never a difference in what is refused,
      because the revision is compared first and an equal revision means equal facts. */
  datatype Context = Context(engagement: EngagementId, job: JobId, revision: nat, authority: Authority,
                             caseHash: Digest,
                             notBefore: Instant, expiresAt: Instant, testingStart: Instant, testingEnd: Instant,
                             maxExecutions: int, maxDuration: int, maxArtifact: int, grants: seq<Instant>)

  /** A signed approval as presented. `trusted` stands for the signature and trust-anchor checks. */
  datatype Envelope = Envelope(id: ApprovalId, approver: UserId, approvedAt: Instant, context: Context, trusted: bool)

  datatype Approval = Approval(job: JobId, engagement: EngagementId, authorization: AuthorizationId, owner: UserId,
                               envelope: Envelope, caseHash: Digest, issued: nat, revoked: bool)

  datatype Contract = Contract(id: ContractId, approval: ApprovalId, ordinal: nat, attempt: int, fence: nat,
                               sha: Digest, consumed: bool)

  /** The tuple every later call repeats to name one issued contract. */
  datatype Binding = Binding(contract: ContractId, attempt: int, fence: nat, sha: Digest)

  datatype ManagedResult = ManagedResult(job: JobId, binding: Binding, artifact: Digest, caseHash: Digest,
                                         preflightFailed: bool, outcome: Option<Outcome>, finishedAt: Option<Instant>)

  /** The receipt digest of a stored result covers exactly these fields. */
  datatype ResultReceipt = ResultReceipt(job: JobId, binding: Binding, artifact: Digest, caseHash: Digest)

  datatype Cause = LocalEmergencyStop | RemoteStopRequested | ControlCapUnavailable | ControlLeaseExpired
                 | AuthorizationDeadline | ToolTimeout | DescendantsAfterToolExit

  function CauseOutcome(cause: Cause): Outcome {
    match cause
    case LocalEmergencyStop | RemoteStopRequested => Cancelled
    case _ => Unsuccessful
  }

  datatype ManagedStop = ManagedStop(job: JobId, binding: Binding, outcome: Outcome, cause: Cause, finishedAt: Instant)

  // ----- The whole store -----

  /** One committed budget charge. */
  datatype Charge = Charge(engagement: EngagementId, job: JobId, targets: nat, seconds: nat)

  /** What has ever happened. No operation reads it; it exists to state properties of whole runs,
      and to say that generated identifiers are never repeated. */
  datatype History = History(jobs: set<JobId>, engagements: set<EngagementId>, charges: seq<Charge>,
                             evidence: multiset<JobId>)

  /** Contracts are keyed by job and receipts by job, as their unique constraints allow. */
  datatype World = World(engagements: map<EngagementId, Engagement>, jobs: map<JobId, Job>,
                         executions: map<JobId, Execution>, receipts: map<JobId, Digest>,
                         approvals: map<ApprovalId, Approval>, contracts: map<JobId, Contract>,
                         results: map<ContractId, ManagedResult>, stops: map<ContractId, ManagedStop>,
                         observed: Option<Instant>, history: History)

  /** The canonical payload of an uploaded result: its digest with and without the assessments part. */
  datatype Payload = Payload(full: Digest, legacy: Digest)

  // ----- Replies and refusals -----

  datatype Reply =
    | Plain
    | Claimed(owned: Option<Execution>)
    | State(phase: Phase)
    | Action(go: bool)
    | Conflict
    | Stored(alreadyProcessed: bool)
    | Permitted(revision: nat)
    | Renewed(seconds: int, expiresAt: Instant)
    | Launched(binding: Binding)
    | Issued(contract: Contract, execution: Execution)
    | Retained(receipt: ResultReceipt)
    | Completion(receipt: ResultReceipt, outcome: Outcome)
    | Stopped(binding: Binding, outcome: Outcome, cause: Cause)

  /** A committed transaction: the new store and what the caller is told. */
  datatype Commit = Commit(world: World, reply: Reply)

  datatype Reason =
    | NotFound | AlreadyExists | InvalidStatus | ManagedRequired | CaseNotFound | StopWorkActive
    | PolicyRequired | BudgetedExecutionRequired | CapacityExhausted
    | TargetBindingRequired | UnsupportedTargetCase | TargetBindingMismatch | TargetsExhausted
    | DurationRequired | DurationExhausted | WorkUnresolved | BudgetSpent
    | OwnedFinalizationRequired | AlreadyFinalized | ReservedCapacity
    | WrongTool | DifferentUpload | ResultCaseMismatch
    | ClockRollback | ApprovalRefused | ApprovalContextChanged | ApprovalNotLive | ApprovalIdReused
    | ApprovalUnavailable | EnrollmentRequired | PendingJobRequired | RevisionChanged | OwnerRequired
    | ActiveAuthorityRequired | CaseBindingRequired | ScopeDenied | WindowExceeded | ManagedBudgetsRequired
    | ApprovalExhausted | AttemptAlreadyIssued | ContractFenceRequired | LeaseNotLive | AllocationRequired
    | ContractBindingRequired | AlreadyConsumed | ConsumedContractRequired | ResultApprovalBinding
    | ResultSize | InvalidResult | ResultBindingChanged | DifferentResult | ForeignReceipt
    | ResultReceiptRequired | DifferentCompletion | ForeignCompletion | ReservationRequired
    | PreflightFailed | CompletionInconsistent | StopBindingChanged | DifferentStop | StopInconsistent
    | ResultStarted | ClaimInconsistent | ConsumptionInconsistent | ProposalResolved
}
