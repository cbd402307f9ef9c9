# VardrMap: verified model of controlled execution

VardrMap queues security-testing jobs for remote runners. This project models the parts of its backend that
decide whether a job may run, for how long, under whose permission, and what its result is worth, and proves
what they promise.

**The execution protocol.** A job is created, claimed, leased, renewed, launched, given a result or a stop, and
finished, under three engagement budgets (running capacity, represented targets, allocated seconds), a stop-work
brake, an authority revision counter, signed approvals, one-shot contracts and a persisted clock. The legacy routes
and the managed adapters change the same tables. `Records` holds the rows. `JobSteps` and `ManagedSteps` give every
route as one transaction on a store value, `Protocol` the 27 kinds of transaction, their runs, and the invariant of
every reachable store. `Database.Tables` is the same routes as in-place code over mutable tables that may refuse after
it has written; each is proved to do exactly its step, and `Transaction` rolls refused ones back. `Frames`,
`Preservation`, `ManagedPreservation` and `ClaimPreservation` carry the invariant over every step, `Evolution` a
forward relation ("what never changes back"), `Runs` both over whole runs, and `Footprints` what each kind of
transaction leaves alone. `Admission` and `JobRules` say of each action, from the stored rows, the request and its
samples alone, when it commits and what it writes. `Guarantees`, `Standing`, `Starts`, `Timing`, `Leases`, `Completion`,
`Receipts`, `Effects`, `Observation`, `Pipelines` and `Narrowing` hold the results over runs. `Witness` holds one run
that completes a managed job, so that none of them is about runs that cannot happen, and the concrete runs behind what
the code does not promise.

**Around it.** `Assessments` and `SemanticRows` (what a final verdict on a reported result guarantees), `Policy`, `Text`
and `UrlRules` (scope matching as label and segment lists, exclusion dominance, the hosts of URL rules), `Wire`
(unpadded base64url), `ReconUpsert` (enriching rows in place through a host index), `Coverage` (attributing cases and
runs to operations).

How the model reads the program:

- Every mutation takes one lock order (`backend/execution_control.py:20-46`), so each route is one atomic step. A
  managed operation is three: observe the clock, the transaction, and observe again if it was refused; others may
  commit in between. Every reading of a clock is a value of its own: no order between samples is assumed.
- Instants are integers in microseconds. Digests and generated identifiers are integers; a digest of a record is the
  record, so digests are injective. `trusted` on an envelope stands for the signature and trust-anchor checks,
  `enrolled` in `Facts` for the API-key, principal and runner enrollment rows, `inScope` for the policy answer on the
  plan's requests. `Narrowing.ActionInsideScope` says what a commit means when that answer is the one `Policy` gives over
  the scope rows stored at that moment.
- The signed context carries the whole of an engagement's authority, where the program digests one grant, the scope rows,
  type, status and limits. In reachable stores this refuses nothing more: the revision must match first, and an equal
  revision means equal facts (`Guarantees.RevisionStandsForFacts`).
- The history component records which identifiers were ever used, every charge and every stored piece of evidence.
  No route reads it except to say that a generated identifier is new.
- The frozen spec of a job counts as missing when it equals the spec without any of the modelled fields, whereas the
  program counts any non-empty stored spec as captured, one with none of those fields included.
- Maps keyed by job stand for the unique constraints on executions, contracts and upload receipts.

What the code does not promise, found while proving, and how it is stated:

- A registered job can be set to done or failed before it is claimed. Observing it is refused from then on:
  `Observation.ObservationConsistent` gives the exact condition, `Observation.PatchedAwayUnclaimed` the failing family.
- The stored completion time is one more sample of the operation's clock (`backend/managed_results.py:280`), never before
  its anchor, but compared with nothing. It is inside the lease, and inside every ceiling, exactly when the wall clock
  read at that moment is (`Timing.CompletionTimeExactly`); both checks around it always are (`Timing.CompletionChecked`).
  `Completion.DoneMeansCompleted` carries this to every done job of every reachable store, and
  `Witness.LateCompletionHappens` is a reachable completion stored past its lease and its ceiling.
- Samples of one operation's clock can go back when the wall clock does (`Timing.SamplesAdvance` says exactly when).
  Across operations the persisted clock row makes up for it: once it has reached the end of a contracted lease, no run
  whose managed operations are each in order within themselves moves the lease or newly completes the execution
  (`Timing.LeaseEndsWithClock`). Without that order one microsecond is enough: `Witness.RevivalHappens` is a reachable
  store and a renewal that revives a lease whose end the clock row already shows.
- The first lease, at claim, is not clipped to the approval's ceilings; every renewal is. It is inside them exactly when
  a whole lease is left on each (`Leases.FirstLeaseExactly`), and in every reachable store a lease past its ceiling is
  still the very one its claim gave (`Leases.LeaseCappedOrFirst`). `Witness.FirstLeaseOutlivesCeiling` allocates one
  second and leases ten.
- A result is accepted after a stop report: submission never looks at the stops (`Receipts.SubmissionIgnoresStops`), and
  `Witness.ResultAfterStopHappens` is a reachable store where one commits. It can then never be completed
  (`Receipts.StoppedNeverCompletes`, `Guarantees.ReceiptsExclusive`).
- A pipeline is created whether or not the brake is on, although each stage is meant to be validated like a single job:
  `JobRules.PipelinesIgnoreBrake`; `JobRules.PipelineUnderBrake` for the family where the one is refused and the other
  is not, and `Witness.BrakedPipelineHappens` for a reachable store. Nothing of it starts while the brake stays on
  (`Starts.NothingStartsUnderBrake`).
- A URL rule that matches a target confines it to one host exactly when the rule's own host can be read
  (`UrlRules.UrlRuleConfinesExactly`). A single-label name cannot, so a rule for one matches the same page of every host
  with a dotted name (`UrlRules.SingleLabelMatchesAny`, `UrlRules.IntranetRuleMatchesForeign`). Coverage still composes.

## Model

| member | source | states |
|---|---|---|
| Guarantees.CapacityIsExact | backend/concurrency_budget.py:7-29 | In every reachable store the running jobs of an engagement with a concurrency limit are exactly its reservations and at most the limit; without a limit nothing is reserved |
| Guarantees.BudgetsConserved | backend/target_budget.py:33-48 | Targets spent and seconds allocated are the sums of every charge ever committed, deleted jobs included; they respect a set limit and are zero under none; a duration limit bounds the number of finite allocations ever made |
| Guarantees.NothingRefunded | backend/duration_budget.py:5-18 | Over any run neither total ever decreases |
| Guarantees.ClockNeverFallsBack | backend/managed_issuance.py:62-88 | Over any run the observed time never decreases and no job identifier is reused |
| Guarantees.RevisionStandsForFacts | backend/managed_authority.py:30-41 | Over any run an equal authority revision means equal scope, permissions, brake, type, status and limits, and unchanged test cases |
| AuthorityEdits.EditAdvances | backend/routers/authorizations.py:92-121 | One edit either changes no authority fact and no stored case or advances the revision by one, and never touches brake, limits, owner or accounting |
| AuthorityEdits.EditExactly | backend/routers/scope.py:100-173 | Each edit is accepted if and only if its row is new, or there on its side of the list, or its proposal pending, and changes that one thing, with the revision exactly where it matters |
| Guarantees.ActionsNeedForce | backend/managed_issuance.py:352-392 | Every claim, check, renewal, launch and success commits only while its own approval is unrevoked, owned by the engagement's owner, and signed for the facts now in force |
| Standing.ActionsArePermitted | backend/managed_issuance.py:352-392 | And only with everything permission rests on, read from the rows: trusted and signed for exactly what is stored, an active authorization, the case as stored, and the instant it was judged at inside the approval and its testing window |
| Admission.PermissionExactly | backend/managed_issuance.py:151-213 | Permission is granted if and only if those facts hold |
| Admission.CheckExactly | backend/managed_issuance.py:394-409 | A check permits if and only if its caller is named, permitted, active and inside its lease on a clock that has not gone back |
| Admission.LaunchExactly | backend/managed_issuance.py:427-461 | A launch is acknowledged if and only if in addition its contract's digest is named, it was not launched before and its lease outlasts every sample; only the contract is marked |
| Admission.RenewalExactly | backend/managed_issuance.py:411-425 | A renewal commits if and only if in addition a whole second is left under the ceiling and the old lease has not ended, and grants exactly ten seconds or the whole seconds left |
| Admission.RegistrationExactly | backend/managed_issuance.py:268-330 | An approval is registered if and only if its owner presents it for a pending job it describes and it is signed for at all three samples, or it is the one the job already has |
| Admission.RevocationExactly | backend/managed_issuance.py:332-350 | Only the owner revokes, and nothing but that approval and the clock row changes |
| Admission.ManagedClaimExactly | backend/managed_issuance.py:596-664 | A managed claim commits if and only if permission, all three budgets, the clock and the approval's remaining executions allow it |
| Admission.SubmissionRefused | backend/managed_results.py:142-162 | A submission by the holder is refused for its size, its form or its case when that is the first thing wrong |
| Admission.SubmissionExactly | backend/managed_results.py:123-201 | It commits if and only if all three are right and it repeats the stored result or nothing was ever stored, and writes exactly its row, receipt and evidence |
| Admission.CompletionExactly | backend/managed_results.py:203-291 | A completion by the holder commits if and only if it repeats the stored outcome, or its receipt is right, the execution runs on reserved capacity, and a success is permitted and strictly inside the lease and ceilings at both checks |
| Admission.StopExactly | backend/managed_stops.py:76-132 | A stop report by the holder commits if and only if it repeats the stored cause or nothing is stored and the execution still runs; it is answered with the outcome its cause stands for |
| Admission.ClockExactly | backend/managed_issuance.py:62-88 | The clock row takes a sample if and only if it is not before what it shows |
| Standing.ClockOrdersCommits | backend/managed_issuance.py:223-232 | Once an operation committed, over any run no operation commits whose first sample is before the last one recorded |
| Standing.NothingHeldIsLost | backend/routers/jobs.py:1078-1106 | No event of any kind makes a job with reserved capacity, or an engagement in which anything was charged, disappear |
| Standing.ChargedNeverForgotten | backend/routers/engagements.py:281-299 | Over any run an engagement in which anything was charged stays |
| Guarantees.StaleApprovalNeverActs | backend/managed_issuance.py:151-167 | Once the revision moved past an approval's, or it was revoked, no later event acts under it |
| Guarantees.BrakeEndsApprovals | backend/routers/engagements.py:311-364 | Pulling and releasing the brake restores every fact and still ends every approval signed before |
| Guarantees.BrakeStopsEverything | backend/routers/engagements.py:326-337 | In every reachable store with stop-work engaged no execution of the engagement is active |
| Guarantees.BrakedNeverCompletes | backend/routers/jobs.py:984-1028 | An execution live when the brake was pulled is never active and never completed in any later store, in either protocol, released or not |
| Starts.BrakedClaimsFail | backend/routers/jobs.py:913-925 | While the brake is on no claim of either kind commits for a job of the engagement |
| Starts.NothingStartsUnderBrake | backend/routers/jobs.py:913-925 | Over any run that keeps the brake on, no job of the engagement comes to run, in either protocol |
| Starts.LegacyClaimExactly | backend/routers/jobs.py:851-934 | A legacy claim commits if and only if the job is pending and outside managed permission, the brake is off, its case is stored and the budgets allow it |
| Starts.LegacyClaimRows | backend/routers/jobs.py:926-934 | It starts that job at the time given with the case as stored, and leases ten seconds from its own sample |
| Starts.OnlyClaimsStart | backend/routers/jobs.py:806-829 | Of the 27 kinds of transaction only claims start a job; the others leave a row, end it with its time, put a running one back, or put a pending gate job under an approval, and lose nothing held |
| Starts.ReachableRowsSound | backend/routers/jobs.py:825-829 | In every reachable store a job has an end time exactly when it ended, a start time when it runs, a contract only for a gate job, and its case frozen once started |
| Starts.ManagedRunsContracted | backend/managed_issuance.py:608-664 | In every reachable store a running job that asks for managed permission runs under a contract of its own approval |
| JobRules.CreationExactly | backend/routers/jobs.py:428-477 | A job is created if and only if its identifier is new, the brake is off, only a gate job asks for a contract, its case is stored and its parent is of the engagement |
| JobRules.PipelineExactly | backend/routers/jobs.py:510-567 | A pipeline is created if and only if it has one to eight new stages, none asking for a contract, each with its case stored; each then waits on the one before |
| JobRules.PipelinesIgnoreBrake | backend/routers/jobs.py:510-567 | The brake never decides whether a pipeline is created |
| JobRules.PipelineUnderBrake | backend/routers/jobs.py:510-567 | Under the brake a pipeline of one new job commits where the job alone is refused for the brake |
| JobRules.UpdateExactly | backend/routers/jobs.py:774-829 | A status update commits if and only if it is in the table, or asks a running controlled job to fail; a finishing one sets the end time |
| JobRules.LegacyFinishHeard | backend/routers/jobs.py:1004-1012 | A legacy finish is heard if and only if it comes from the holder outside managed permission, and after the end only if it says the same |
| JobRules.LegacyFinishExactly | backend/routers/jobs.py:1013-1028 | Success ends it only if active, inside the lease and unbraked, else it is asked to cancel; failure and cancellation always end it; not knowing leaves it uncertain |
| JobRules.LegacyRefreshHeard | backend/routers/jobs.py:984-991 | A legacy renewal is heard if and only if it comes from the holder outside managed permission |
| JobRules.UploadExactly | backend/routers/jobs.py:1196-1287 | A legacy upload is accepted if and only if the job is a gate job outside managed permission and the result is about its case, or is the stored payload again |
| JobRules.LimitsExactly | backend/routers/engagements.py:37-100 | A limit is set if and only if nothing of the engagement runs or holds capacity and what was spent stays within it |
| JobRules.LimitsAreSet | backend/routers/engagements.py:37-100 | And then exactly that limit changes, with the revision if it is another |
| JobRules.EngagementDeletionExactly | backend/routers/engagements.py:281-299 | An engagement is deleted if and only if nothing was charged, nothing holds capacity and, under a capacity limit, nothing runs; exactly its jobs go with it |
| JobRules.BrakeExactly | backend/routers/engagements.py:311-364 | Pulling and releasing sets and clears the brake, moves the revision exactly if that is a change, and pulling asks exactly the engagement's active executions to cancel |
| JobRules.EngagementCreationExactly | backend/routers/engagements.py:161-204 | A new engagement grants, limits, stores and has spent nothing |
| Guarantees.OneAttempt | backend/routers/jobs.py:806-823 | A job with an execution keeps that one, never returns to pending, gains no contract, and no claim of either kind ever commits for it again |
| Guarantees.IssuedCountsContracts | backend/managed_issuance.py:633-664 | An approval's counter is the number of contracts citing it and within what was signed |
| Guarantees.ConsumedOnce | backend/managed_issuance.py:557-583 | After one launch acknowledgement, no later one for that job ever commits |
| Guarantees.ReceiptsExclusive | backend/managed_stops.py:61-74 | Results and stops name consumed contracts; none has both a stop and a finished result; the terminal receipt is the execution's final state, capacity released |
| Guarantees.InconsistencyUnreachable | backend/managed_results.py:109-121 | In no reachable store does a submission, completion or stop refuse because retained records disagree or the allocation is missing, nor a completion for missing capacity |
| Guarantees.FinishNeverInconsistent | backend/managed_results.py:229-291 | While the records of a contract agree, a completion never refuses for disagreement or missing capacity |
| Guarantees.StopNeverInconsistent | backend/managed_stops.py:103-132 | While they agree, a stop report never refuses for disagreement, and for capacity only if the execution has ended |
| Guarantees.FinishRefusals | backend/managed_results.py:203-291 | While the records agree, the complete list of what a completion can refuse for: its owner, its receipt, another outcome, an execution already ended, permission, or the clock |
| Guarantees.StopRefusals | backend/managed_stops.py:76-132 | The same for a stop report: its owner, another cause, a result already started, the clock, and missing capacity only once the execution has ended |
| Guarantees.SubmissionRefusals | backend/managed_results.py:123-201 | The same for a submission: its owner, what it carries, what is already stored, or the clock |
| Completion.DoneMeansCompleted | backend/managed_results.py:241-291 | A managed job that ran and is done was launched, has no stop, and has a stored result without preflight failure finished by one success, committed earlier in the same run on an active execution with both live checks strictly inside the lease and ceiling that still stand; its stored time is inside each exactly when the wall clock it was read from was |
| Completion.FinishedResultWasClosed | backend/managed_results.py:229-282 | Every finished result of every run was closed by one of its steps, a first completion of that contract, whose outcome and time it stores |
| Footprints.ContractsKept | backend/managed_issuance.py:633-664 | Of the 27 kinds of transaction only a managed claim issues a contract; no other adds or removes one |
| Footprints.OutcomesKept | backend/managed_results.py:279-280 | Of the 27 kinds of transaction only a completion gives a result its outcome |
| Runs.RunInvariant | backend/execution_control.py:20-46 | Every store any run reaches keeps the whole invariant and is later than where it started |
| Runs.NextKeeps | backend/routers/jobs.py:851-960 | One transaction of any of the 27 kinds, committed or refused, keeps the invariant |
| Runs.NextLater | backend/managed_issuance.py:223-232 | One transaction of any kind only moves forward: revisions, spending, receipts, ended executions, consumption and time are never undone |
| Preservation.LegacyFinishKeeps | backend/routers/jobs.py:1004-1028 | Finishing outside managed permission keeps the invariant, through each of its four outcomes |
| Preservation.StopWorkKeeps | backend/routers/engagements.py:326-337 | Pulling the brake keeps the invariant, every active execution included |
| ClaimPreservation.LegacyClaimKeeps | backend/routers/jobs.py:851-943 | A legacy claim keeps the invariant: job, charges and reservation appear together |
| ClaimPreservation.ManagedClaimKeeps | backend/managed_issuance.py:596-679 | A managed claim keeps the invariant: job, charges, execution, contract and counter appear together |
| ClaimPreservation.ManagedClaimShape | backend/managed_issuance.py:608-664 | What a committed managed claim has checked and exactly what it wrote |
| ManagedPreservation.FinishKeeps | backend/managed_results.py:229-291 | A completion keeps the invariant, receipt and execution ending alike |
| Frames.LegacyFinishShape | backend/routers/jobs.py:1012-1028 | A legacy finish is a repeat, an end, or a change short of an end; success needs an active, unexpired, unbraked execution |
| Timing.SamplesAdvance | backend/managed_issuance.py:55-60 | A sample is never before its anchor; a later one is smaller exactly when the wall clock fell and had been ahead of the elapsed time |
| Evolution.RenewalBounded | backend/managed_issuance.py:512-550 | A renewal lands strictly after its instant, at most ten seconds ahead, under every ceiling, from an unexpired lease, despite truncation to whole seconds |
| Timing.CeilingIsLeast | backend/managed_issuance.py:519-535 | The ceiling is at most the approval end, the window end, every credential end and the start plus either duration, and equals one of them |
| Timing.RenewedStaysUnderCeiling | backend/managed_issuance.py:536-550 | Through any run after a renewal the lease stays under every ceiling |
| Leases.FirstLeaseExactly | backend/execution_control.py:112-127 | The lease a claim gives is inside its ceiling if and only if a whole lease, from the sample the claim took, is left on the approval, the testing window, every credential grant and the start plus the smaller duration |
| Leases.ContractWasIssued | backend/managed_issuance.py:608-664 | Every contract of a run was issued by one committed claim of that run, and by no other transaction |
| Leases.LeaseCappedOrFirst | backend/managed_issuance.py:536-550 | In every reachable store the lease of a contracted job is under its ceiling, or is still the one its claim gave when a whole lease was not left |
| Timing.ExpiredStaysExpired | backend/managed_issuance.py:500-550 | If every later sample that consults this lease is at or after its end, over any run it is never moved and its execution never newly completes, in either protocol |
| Timing.LeaseEndsWithClock | backend/managed_issuance.py:62-88 | Once the clock row is at or after the end of a contracted lease, over any run whose renewals and completions are each in order within themselves (the recorded sample is not after the one that consults the lease) the lease is never moved and the execution never newly completes |
| Timing.ExpiredNeverLaunches | backend/managed_issuance.py:500-503 | Over any run whose samples consult the lease late, no launch or check whose own samples reach the end of the lease commits |
| Timing.ClockEndsLaunches | backend/managed_issuance.py:574-577 | Once the clock row is at or after the end of a contracted lease, over any run in order within itself no in-order launch or check commits |
| Timing.CompletionChecked | backend/managed_results.py:242-289 | A completion commits only from an active execution with no preflight failure, with both live checks strictly inside the lease and every ceiling |
| Timing.CompletionTimeExactly | backend/managed_results.py:242-289 | When the stored time and the check after it are samples of one clock, the stored time is never before the anchor, and it is inside the ceiling, and inside the lease, exactly when the wall clock read for it is |
| Receipts.EvidenceOnce | backend/routers/jobs.py:1269-1287 | In every reachable store the evidence of a job was written at most once, and exactly once if its receipt exists |
| Receipts.UploadSettled | backend/routers/jobs.py:1269-1287 | After one accepted upload every later one is acknowledged without change if its payload, with or without assessments, is the stored one, and refused otherwise |
| Receipts.SubmitSettled | backend/managed_results.py:164-200 | Repeating a submission at any later store returns the same receipt and changes nothing; another artifact is refused |
| Receipts.FinishSettled | backend/managed_results.py:229-237 | Repeating a completion at any later store returns the same acknowledgement and changes nothing; another outcome or receipt is refused |
| Receipts.StopSettled | backend/managed_stops.py:103-108 | Repeating a stop report at any later store returns the same acknowledgement and changes nothing; another cause is refused |
| Receipts.StopCauseDecides | backend/managed_stops.py:6-16 | In every reachable store a stop was a cancellation if its cause is a local emergency or a remote request, and a failure otherwise, and so its execution ended |
| Receipts.SubmissionIgnoresStops | backend/managed_results.py:123-201 | Whatever stops are stored, a submission is refused for the same reason or commits the same rows and reply |
| Receipts.StoppedNeverCompletes | backend/managed_results.py:238-241 | Once a stop is stored, over any run no completion of that contract commits |
| Receipts.OwnershipLasts | backend/managed_results.py:20-64 | Owning a consumed contract lasts as long as its job exists, with the same approval and the same frozen case |
| Observation.ObservationConsistent | backend/managed_observations.py:121-165 | In a reachable store an observation's consistency checks hold exactly when the job was claimed or is still pending |
| Observation.PatchedAwayUnclaimed | backend/routers/jobs.py:401-406 | From any store with a registered pending job, one status update to done or failed commits and makes observation refuse |
| Observation.ObservationTellsTruth | backend/managed_observations.py:106-186 | What an observation reports as completion or stop is what the execution ended as, and never both |
| Observation.OnlyOwnersObserve | backend/managed_observations.py:62-84 | Only an enrolled owner of the job's approval observes it |
| Effects.LegacyClaimCharges | backend/routers/jobs.py:928-934 | A legacy claim adds one charge: under a target limit the number of origins of the case it froze, under a duration limit the seconds asked for, nothing without a limit |
| Effects.ManagedClaimCharges | backend/managed_issuance.py:615-632 | A managed claim adds one such charge |
| Effects.RevocationIsFinal | backend/managed_issuance.py:332-350 | Once revoked an approval permits nothing in any later store |
| Effects.RenewalIsGenerous | backend/managed_issuance.py:536-544 | A renewal gives the full ten seconds, or comes within one second of the ceiling |
| Effects.StopAnswerIsFinal | backend/routers/jobs.py:984-1000 | A legacy renewal answers stop exactly when it leaves the execution inactive; over every later run the attempt is then completed only if it already was, and a renewal that commits answers stop again |
| Effects.CancelIsFinal | backend/routers/jobs.py:806-816 | After a status update on a controlled execution, over every later run it is never active or completed, and no launch or renewal of it commits |
| Effects.DeletionIsClean | backend/routers/jobs.py:1098-1103 | Deleting a job removes its rows and nothing else, never reserved capacity, and refunds nothing |
| Pipelines.DependenciesAcyclic | backend/routers/jobs.py:493-556 | In every reachable store no chain of parents of any length returns to its job |
| Pipelines.PollSortsJobs | backend/routers/jobs.py:743-768 | Every visible pending job is offered, failed or held by its parent's stored status and its case: offered only with no parent or a done one, held exactly behind a pending or running one; the poll writes the failures and nothing else |
| Pipelines.PollProgress | backend/routers/jobs.py:743-770 | A poll removes exactly the failing jobs from the pending ones, so one that fails any strictly lowers their number and one that fails none changes nothing |
| Pipelines.FailureReaches | backend/routers/jobs.py:743-770 | A failed or missing job k steps up a pending chain fails the job within k polls |
| Pipelines.HeldJobsWaitOnLiveOnes | backend/routers/jobs.py:674-732 | When a poll has nothing to fail, every held job waits through a finite pending chain on a job that is running or on offer |
| Narrowing.NarrowScope | backend/nm1_authorization.py:149-181 | The loop accepts a plan exactly when it is not empty and policy allows each request, and returns for each its origin with the port written out, its path and its method |
| Narrowing.DecimalReadsBack | backend/nm1_authorization.py:168-176 | The port written into an origin reads back as the port |
| Narrowing.EntriesReadBack | backend/nm1_authorization.py:165-181 | The narrowed entry of a plain request, read again as an address, is its scheme, host, own or default port and path |
| Narrowing.EntriesOfAddresses | backend/nm1_authorization.py:165-181 | A host with colons is bracketed and an empty path is the root |
| Narrowing.KindsExactly | backend/policy.py:200-213 | Which scope rows are read as networks, as URLs and as names |
| Narrowing.ActionInsideScope | backend/managed_issuance.py:352-392 | Answered from the stored rows, an action commits only with every planned request inside the stored, signed scope, on an active engagement, under an active authorization, inside its testing window |
| Narrowing.RevisionFixesScope | backend/nm1_authorization.py:136-181 | Over any run an unmoved revision means the same scope answer for the same plan and instant, however the rows are listed |
| Narrowing.NewExclusionBites | backend/routers/scope.py:125-147 | Recording an exclusion that matches a planned request denies the plan and makes every approval of the engagement stale |
| Witness.CompletionHappens | backend/managed_results.py:203-291 | Some run from the empty store registers, claims, launches, reports and completes a managed job |
| Witness.LateCompletionHappens | backend/managed_results.py:280-289 | In a reachable store a success commits and stores a time past its lease and its ceiling, with samples its clock can give |
| Witness.RevivalHappens | backend/managed_issuance.py:498-550 | In a reachable store whose clock row already shows the end of a lease, a renewal whose wall clock falls back one microsecond in the middle commits and moves it |
| Witness.FirstLeaseOutlivesCeiling | backend/managed_issuance.py:608-664 | A reachable store and a claim allocating one second whose lease ends nine seconds past its ceiling |
| Witness.ResultAfterStopHappens | backend/managed_results.py:123-201 | A reachable store with a stop in which a submission for the same contract commits |
| Witness.BrakedPipelineHappens | backend/routers/jobs.py:510-567 | A reachable store under the brake in which a job is refused for it and the same job as a pipeline is created |
| Database.OperationAtomic | backend/managed_issuance.py:91-103 | A managed operation refused at any check leaves every row as it was and moves only the clock, forward |
| Database.OperationIsRun | backend/managed_issuance.py:91-103 | An operation is a run of its transactions, keeps the invariant, moves only forward, and leaves a time at or after its first sample |
| Database.Tables.Operation | backend/managed_issuance.py:91-103 | The in-place operation does that, observing again and rolling back on refusal |
| Database.Tables.Transaction | backend/managed_issuance.py:98-103 | Whatever a route wrote is committed whole or undone whole, with the step's own answer |
| Database.Tables.ObserveTime | backend/managed_issuance.py:62-88 | The clock row after one observation, or the rollback refusal |
| Database.Tables.RegisterApproval | backend/managed_issuance.py:268-330 | The tables and answer of registering, its late refusals after writing included |
| Database.Tables.RevokeApproval | backend/managed_issuance.py:332-350 | The tables and answer of revoking |
| Database.Tables.ClaimManaged | backend/managed_issuance.py:596-679 | The tables and answer of a managed claim, charged and started before its last checks |
| Database.Tables.IssueOneContract | backend/managed_issuance.py:633-669 | The contract and counter written, or the refusal, permission checked before and after |
| Database.Tables.RenewLease | backend/managed_issuance.py:512-550 | The lease and answer of a renewal |
| Database.Tables.ConsumeContract | backend/managed_issuance.py:557-585 | The one-way consumption and its acknowledgement |
| Database.Tables.CheckCurrent | backend/managed_issuance.py:463-506 | The current-authority check, which moves only the clock |
| Database.LeastCeiling | backend/managed_issuance.py:519-538 | Scanning the grants finds the least of all ceilings |
| Database.Tables.SubmitResult | backend/managed_results.py:123-201 | The tables and answer of a submission |
| Database.Tables.FinishManaged | backend/managed_results.py:203-291 | The tables and answer of a completion, written before its second live check |
| Database.Tables.ReportStopped | backend/managed_stops.py:76-132 | The tables and answer of a stop report |
| Database.Tables.ClaimJob | backend/routers/jobs.py:851-943 | The tables and answer of a legacy claim, budgets charged in place |
| Database.Tables.ChargeTargetBudget | backend/target_budget.py:33-48 | The engagement is charged exactly the represented origins, or the charge is refused |
| Database.Tables.AllocateDurationBudget | backend/duration_budget.py:5-18 | The engagement is charged exactly the requested seconds, or refused |
| Database.Tables.RefreshExecution | backend/routers/jobs.py:984-1000 | The tables and answer of a legacy renewal: brake first, then expiry, then the lease |
| Database.Tables.FinishExecution | backend/routers/jobs.py:1004-1028 | The tables and answer of a legacy finish |
| Database.Tables.UpdateJob | backend/routers/jobs.py:774-829 | The tables and answer of a status update |
| Database.Tables.RemoveJob | backend/routers/jobs.py:1078-1103 | The tables and answer of deleting a job |
| Database.Tables.StoreGateResult | backend/routers/jobs.py:1246-1300 | Evidence and receipt stored once, or the repeat answered |
| Database.Tables.UploadGateResult | backend/routers/jobs.py:1196-1243 | The legacy upload, refused for managed jobs |
| Database.Tables.CreateJobRow | backend/routers/jobs.py:428-477 | The job created, its parent in the same engagement |
| Database.Tables.CreatePipelineRows | backend/routers/jobs.py:510-561 | Each stage waits on the one before; a bad stage writes nothing |
| Database.Tables.PollPending | backend/routers/jobs.py:646-770 | Exactly the failing jobs are failed and exactly the offered ones returned |
| Database.Tables.FilterByDependencies | backend/routers/jobs.py:743-770 | The loop fails the orphans, judged by the statuses read before it, and keeps the unblocked |
| Database.Tables.ResolveTestCases | backend/routers/jobs.py:674-732 | The loop fails gate jobs whose case is gone and offers the rest |
| Database.Tables.ConfigureConcurrencyLimit | backend/routers/engagements.py:86-98 | The limit set while idle, the revision moved only if it changed |
| Database.Tables.ConfigureTargetLimit | backend/routers/engagements.py:62-77 | The same, never below what was spent |
| Database.Tables.ConfigureDurationLimit | backend/routers/engagements.py:37-53 | The same, never below what was allocated |
| Database.Tables.RemoveEngagement | backend/routers/engagements.py:281-298 | Refused while work is unresolved or anything was charged; else its jobs go with it |
| Database.Tables.PullBrake | backend/routers/engagements.py:311-340 | Every active execution of the engagement is asked to cancel; the revision moves once |
| Database.Tables.ReleaseBrake | backend/routers/engagements.py:343-364 | The brake released, the revision moved only if it was on |
| Database.Tables.AddScopeItem | backend/routers/scope.py:100-122 | The row added and the revision advanced |
| Database.Tables.DeleteScopeItem | backend/routers/scope.py:150-172 | The row removed, or refused after the revision was already advanced |
| Database.Tables.ImportScopeItems | backend/routers/scope.py:176-230 | Exactly the new rows inserted; the revision moves only if there are any |
| EditLoops.NewScopeItems | backend/routers/scope.py:196-211 | The scan keeps exactly the rows whose list side and value are neither stored nor seen before |
| EditLoops.ImportComplete | backend/routers/scope.py:176-246 | An import keeps every row, adds only given ones, and leaves each value stored on its own side of the list |
| AuthorityEdits.LastGrantFieldsWin | backend/routers/authorizations.py:92-121 | The last status, window end and permission text given win, and what is not given stays |
| EditLoops.RevisedGrant | backend/routers/authorizations.py:104-113 | The loop applies every field, and its flag is set exactly when a field other than notes changed value on its turn |
| EditLoops.RevisedAuthority | backend/routers/engagements.py:228-240 | The same for the engagement fields a permission depends on |
| Database.Tables.CreateAuthorizationRow | backend/routers/authorizations.py:61-88 | The authorization created as active and the revision advanced |
| Database.Tables.UpdateAuthorizationRow | backend/routers/authorizations.py:92-121 | The fields applied, the revision moved exactly if a permission field changed |
| Database.Tables.UpdateEngagementRow | backend/routers/engagements.py:217-244 | The fields applied, the revision moved exactly if one that permissions depend on changed |
| Database.Tables.UpdateTestCase | backend/routers/test_cases.py:436-466 | The case replaced, the revision moved only if it differs |
| Database.Tables.DeleteTestCase | backend/routers/test_cases.py:470-485 | The case removed and the revision advanced |
| Database.Tables.ApproveRateCeiling | backend/routers/proposals.py:143-205 | An approved rate ceiling applied and the revision advanced, or refused when the proposal is no longer pending |
| Assessments.EvaluatedIsSound | backend/assessments.py:37-152 | A finally evaluated identity has one reviewed allow or deny, exactly one execution, a verified snapshot, session checks passed or absent, a judgement its evidence bears out, and beside it an evaluated allowed identity |
| Assessments.VerdictExactly | backend/assessments.py:49-135 | Across all passes an identity is evaluated if and only if the snapshot is verified, the session holds, a legitimate caller was let in, its one review is settled by a status code, by assertions or by a verified write, and it was not merely rejected credentials |
| Assessments.BaselineExactly | backend/assessments.py:122-133 | There is a baseline if and only if some declared identity reviewed as allowed is settled on a verified snapshot in a session that holds |
| Assessments.ReportExactly | backend/assessments.py:136-172 | Conclusive if and only if every declared identity is evaluated and every run was of one; partial if and only if only some are |
| Assessments.SkippedExactly | backend/assessment_evidence.py:157-162 | Skipped if and only if there is no single review of allow or deny and no conclusion at odds with that |
| Assessments.NotesExactly | backend/assessments.py:95-121 | What an item notes of its credentials is the one note true of them: passed, failed or not checked, none presented, or a 401 that can or cannot be told from their rejection |
| Assessments.CheckInsExactly | backend/assessments.py:176-190 | The identities that must check in are exactly the declared ones with a check and the write verifier's reader |
| Assessments.ProtectedNeedsEvidence | backend/assessment_evidence.py:138-284 | Whatever was reported, an identity with response assertions or a write verifier that the final report calls evaluated rests on such evidence, never on its status alone |
| Assessments.AllowNeedsAllow | backend/assessments.py:58-79 | Whatever was reported, an identity expected to be allowed that the final report calls evaluated rests on an allow |
| Assessments.RejectedCredentialsProveNothing | backend/assessments.py:112-113 | A denial by 401 with credentials sent is evaluated only if a conclusion reported an allow or the case says 401 is a denial |
| Assessments.ReportAddsUp | backend/assessments.py:124-173 | The four counts add up to the identities; conclusive or partial rests on a baseline; conclusive means exactly that no reason is listed |
| Assessments.SessionSound | backend/assessments.py:176-237 | A session passes, is not configured, or failed if and only if: each identity that must check in did so once as itself and nobody else reported; nothing was declared or reported; somebody was turned away |
| Assessments.Assess | backend/assessments.py:15-173 | The passes over the items, in place and in order, compute the specified report, whatever the number of findings recorded beside it; the judged case and whether its snapshot was verified are recorded too |
| Assessments.HttpPass | backend/assessments.py:34-88 | The first pass gives each identity its status-only item |
| Assessments.ApplySemantics | backend/assessment_evidence.py:138-284 | The second pass rewrites each item as the conclusion for it warrants |
| Assessments.CredentialPass | backend/assessments.py:90-113 | The third pass notes credentials and demotes rejected ones |
| Assessments.DemotePass | backend/assessments.py:114-127 | Snapshot and session demotions, and the baseline as it stands after them |
| Assessments.BaselinePass | backend/assessments.py:128-133 | Without a baseline nothing stays evaluated |
| Assessments.AssessPreflight | backend/assessments.py:176-237 | The session verdict over the declared identities and the reader, and for each identity its status, reason and status code |
| SemanticRows.SafeIsClean | backend/assessment_evidence.py:68-135 | Whatever was reported, what is kept is inside the closed vocabulary and its bounds |
| SemanticRows.SanitizingIsIdempotent | backend/assessment_evidence.py:68-135 | A clean row is read back unchanged, so sanitizing twice is sanitizing once |
| Policy.HostMatchingIsLabelMatching | backend/policy.py:150-192 | The string tests hold exactly when the rule's labels are equal to, a suffix of, or a proper suffix of the host's |
| Policy.InclusionIsExclusion | backend/policy.py:195-233 | Whatever a rule would include, the same rule as an exclusion excludes |
| Policy.PathMatchingIsSegmentMatching | backend/policy.py:265-284 | For a rule not ending in a slash, path matching is having its segments as a prefix |
| Policy.UrlCoverageComposes | backend/policy.py:208-226 | If a URL rule covers b and b, without surrounding whitespace, covers c, then the rule covers c: scheme, port, host and path |
| UrlRules.UrlRuleConfinesExactly | backend/policy.py:208-211 | A URL rule that matches a target confines it to one host if and only if the rule's own host can be read |
| UrlRules.SingleLabelMatchesAny | backend/policy.py:208-226 | A rule for a page of a single-label host matches that page of every host with a dotted name |
| UrlRules.IntranetRuleMatchesForeign | backend/policy.py:208-226 | A rule for https://intranet/admin matches https://www.example.com/admin |
| UrlRules.UrlsReadBack | backend/policy.py:104-148 | An address written out, with or without credentials and port, reads back as its scheme, host, port or the scheme's own, and path |
| UrlRules.NamesReadBack | backend/policy.py:236-285 | A name by itself, with or without a port, reads as no scheme, no path and no port but the one written |
| Policy.CaseDoesNotMatter | backend/policy.py:104-147 | Host, scheme, port and path are read alike from a target and from its lower-cased form |
| Policy.OrderDoesNotMatter | backend/policy.py:343-377 | Answer and reason are the same under any reordering of the scope rules |
| Policy.GateExactly | backend/policy.py:287-340 | The engagement checks pass if and only if there is no brake, it is active, and it authorizes itself or its permission is active, inside both window ends and covers the capability |
| Policy.AllowedInstants | backend/policy.py:323-331 | Under one permission the allowed instants are exactly one closed interval |
| Policy.RulesMatchAsMeant | backend/policy.py:195-233 | A rule matches if and only if its network holds the address, it is the address, its label pattern fits, or its URL's host, scheme, port and path segments do |
| Policy.ExclusionDominates | backend/policy.py:363-369 | One matching exclusion denies whatever else is in scope |
| Policy.MoreExclusionsNeverAllow | backend/policy.py:363-377 | Adding exclusions anywhere never turns a denial into an allow |
| Policy.AllowedExactly | backend/policy.py:343-377 | Allowed if and only if the engagement is open at that instant, the host can be read, no exclusion matches and some inclusion does |
| Policy.AllMeansEach | backend/policy.py:380-411 | All targets are allowed if and only if the engagement is open and each is allowed by itself |
| Wire.AcceptInvertsEncode | backend/managed_wire.py:113-129 | A text is accepted as d exactly when it is the encoding of d and d is not empty and within the bound |
| Wire.AcceptedExactly | backend/managed_wire.py:117-129 | Which texts are accepted, from the text alone: alphabet, length, no left-over bits |
| Wire.EncodedLength | backend/managed_wire.py:117-122 | The length guard is exactly the length of the longest allowed encoding |
| Wire.SymbolsAreTheAlphabet | backend/managed_wire.py:113-129 | The symbols are the base64url alphabet of RFC 4648 in its order |
| Wire.SameBits | backend/managed_wire.py:113-129 | Three bytes and their four values are one 24-bit number |
| Wire.MessageIsInjective | backend/managed_wire.py:132-133 | The signed message determines its purpose and its document |
| ReconUpsert.SameHostSameKey | backend/routers/imports.py:193-207 | A host found by name and the same host probed by URL with port and path are one key |
| ReconUpsert.BracketedKey | backend/routers/imports.py:193-207 | A bracketed address is its own key, whatever port follows |
| ReconUpsert.EnrichmentKeeps | backend/routers/imports.py:240-246 | Enriching keeps key, first-seen time and job, takes exactly what was reported and keeps the rest |
| ReconUpsert.ImportKeeps | backend/routers/imports.py:215-263 | A batch keeps rows in place with their keys, times and jobs, keeps distinct hosts distinct, and leaves every host of the batch known |
| ReconUpsert.TwiceIsOnce | backend/routers/imports.py:215-263 | Importing a batch again inserts no row with a host |
| ReconUpsert.Upsert | backend/routers/imports.py:215-263 | The loop over rows and index computes that import; new plus enriched is the batch |
| ReconUpsert.UpsertItem | backend/routers/imports.py:237-255 | One item enriches or inserts, and the index stays exact |
| ReconUpsert.Enrich | backend/routers/imports.py:241-246 | The field loop overwrites exactly with the non-empty reported values |
| ReconUpsert.BuildIndex | backend/routers/imports.py:225-232 | The index points each host at its first row and knows no other |
| Coverage.NothingIsLost | backend/authorization_coverage.py:260-300 | Every executed run is attributed to some operation or listed unattributed exactly once and never both, and likewise every case |
| Coverage.ViolationsIgnoreCases | backend/authorization_coverage.py:409-436 | An operation is a violation candidate exactly when a run that exercised it has an open or promoted finding, whatever is done to the cases |
| Coverage.ConclusiveExactly | backend/authorization_coverage.py:434-446 | Conclusive exactly when there is no open finding, some case matches, and each one's latest current run is conclusive |
| Coverage.StatesExactly | backend/authorization_coverage.py:434-446 | Short of an open finding each other state holds if and only if its condition on the covering cases and their runs does |
| Coverage.CountsExactly | backend/authorization_coverage.py:105-126 | A run or case counts for an operation if and only if its request has that method, scheme, host, port and a path that fits segment by segment |
| Coverage.OneOrigin | backend/authorization_coverage.py:119-126 | Two operations one run counts for share method, scheme and host |
| Coverage.ReasonsAreTrue | backend/authorization_coverage.py:276-297 | Every unplaced case or run is listed with its own reason |
| Coverage.LatestIsLatest | backend/authorization_coverage.py:146-170 | The latest current run judged the present spec on a verified snapshot and none that did comes after it |
| Coverage.MixedIsNeverEvaluated | backend/authorization_coverage.py:345-407 | In the report, each operation has a state for exactly the identities some case declares, and it is the one state true of what the operation's matching cases that declare it say through their latest current runs; evaluated by only some of them is mixed, never evaluated |
| Coverage.OwnTemplateMatches | backend/routers/api_surface.py:60-73 | Every path starting with a slash is matched by its own inferred template |
| Coverage.Build | backend/authorization_coverage.py:173-307 | The loops, placing by identifier, build exactly the specified report |

## Left out

- Access control: membership, roles, API-key scopes and which engagements a caller may see; a poll takes the visible engagements as given.
- Polling reads jobs without a lock, so a poll racing another route is not one step; the model polls atomically.
- Database.Tables.PollPending: the oldest-first order of the jobs offered is not stated, because the query's order is not modelled.
- Cryptography, JSON encoding, API-key enrollment rows and plan documents: parameters (`trusted`, `enrolled`, digests) stand for them, so the checks comparing an execution's owner, origin, runner and principal with the enrollment are not part of this model.
- Observation.ObservationConsistent: leaves out the comparison with the enrollment row and with the signed contract's payload, which the enrollment parameter stands for.
- Row deletion follows the cascade of the production database; approvals, contracts, results and stops of a deleted job are retained.
- The executions of a claim retried by the serving framework, network errors and lost responses.
- Proposals' own rows: their effect on an engagement is an edit, and whether one is still pending is a parameter.
- Payload size refusals (413), error messages, audit logging, webhooks, events, warnings on claim.
- Database.Tables.StoreGateResult: the scan items and evidence rows written are one count per job, because redaction and projection are not modelled.
- Assessments.AssessPreflight: the per-identity rows are keyed by identity; the order they are listed in is not stated.
- Deduplicating scanner items and recon rows of other tools (`_dedup_scan_items`, `_dedup_recon`): easy members beside the in-place upsert.
- ReconUpsert.Upsert: linking rows to assets and to their job's provenance is not modelled.
- Assessments.EvaluatedIsSound: decisions are the validated allow, deny and skip; a stored decision outside them cannot be created.
- Policy: lower-casing and whitespace are those of ASCII; address literals and network membership are parameters.
- Coverage.Build: the report's summary counts, history and evidence lists are not part of it, nor are priority reasons, the reason and expectation beside an identity's state, and sorting; the states and placements they are drawn from are.
- Coverage: request parsing and identifier shapes are parameters.
- Calendar and time zones: instants are integers.
