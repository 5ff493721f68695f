// The job ledger: its records and the invariant every stored job satisfies.
module Ledger {
  import opened Options
  import opened Utf16

  // ----- texts, digests and times -----

  /** A printable ASCII literal as UTF-16 text. */
  function Ascii(s: string): (t: Text)
    requires forall i :: 0 <= i < |s| ==> ' ' <= s[i] < '\U{0080}'
    ensures |t| == |s| && forall i :: 0 <= i < |s| ==> t[i] == s[i] as int && 0x20 <= t[i] < 0x80
  {
    seq(|s|, i requires 0 <= i < |s| => s[i] as CodeUnit)
  }

  /** `t.trim()` is not empty. */
  predicate HasInk(t: Text) {
    exists i :: 0 <= i < |t| && !IsSpace(t[i])
  }

  predicate IsBounded(t: Text, max: nat) {
    HasInk(t) && |t| <= max && 0 !in t
  }

  predicate IsHexUnit(u: CodeUnit) {
    0x30 <= u <= 0x39 || 0x41 <= u <= 0x46 || 0x61 <= u <= 0x66
  }

  predicate IsHexText(t: Text, length: nat) {
    |t| == length && forall i :: 0 <= i < |t| ==> IsHexUnit(t[i])
  }

  predicate IsSha(t: Text) {
    IsHexText(t, 40)
  }

  /** SHA-256 as an injective function: one constructor for each shape of hashed value,
    * and one for a text that did not come from hashing. */
  datatype Digest =
    | WorkerBase(baseSha: Text, remoteHeadSha: Option<Text>)
    | ReviewerHead(baseSha: Text, headSha: Text)
    | ProviderAttempt(provider: Text, code: FailureCode, attemptId: Option<Text>, headSha: Text)
    | ProviderScope(jobId: Text, lane: Lane, headSha: Text)
    | OfResult(result: AttemptResult)
    | OfIncident(jobId: Text, jobRevision: int, incidentLane: IncidentLane, attemptId: Option<Text>,
        blockClass: BlockClass,
                 summary: Text, candidate: Option<Candidate>, diagnostic: Option<Diagnostic>, createdAt: Stamp)
    | OfText(text: Text)
    | Plain(hex: Text)

  predicate IsHex64(d: Digest) {
    d.Plain? ==> IsHexText(d.hex, 64)
  }

  /** A time text: the milliseconds it parses to, if it parses, and which spelling it is. */
  datatype Stamp = Stamp(ms: Option<int>, spelling: nat)

  predicate IsTime(s: Stamp) {
    s.ms.Some?
  }

  /** `Date.parse(a) < Date.parse(b)`: false when either is not a time. */
  predicate Earlier(a: Stamp, b: Stamp) {
    a.ms.Some? && b.ms.Some? && a.ms.value < b.ms.value
  }

  predicate Distinct<T(==)>(xs: seq<T>) {
    forall i, j :: 0 <= i < j < |xs| ==> xs[i] != xs[j]
  }

  // ----- records -----

  datatype Lane = Worker | Reviewer
  datatype IncidentLane = Of(lane: Lane) | Controller
  datatype JobState =
    | Claimed | WorkerReady | WorkerRunning | ReviewerReady | ReviewerRunning | PublishReady
    | AwaitingMerge | Blocked | RecoveryApproved | Done | Cancelled
  datatype RecoveryAction = RetryWorker | RetryReviewer | Hold | OtherAction(text: Text)
  datatype BlockClass =
    | AgentDecision | AgentBlocked | ReviewUncertain | ReviewerPreflightDirty | ValidationInfrastructure
    | InfrastructureExhausted | IntegrityViolation | StaleTask | CiFailed | CiReworkExhausted | AnalystUnavailable
  datatype Rule = WorkerPreDispatch | ReviewerSameHead | ProviderTransient
  datatype FailureCode =
    | ProviderRateLimited | ProviderNetwork | ProviderTimeout | ProviderUpstream5xx | ProviderContinuationLost
    | OtherCode(text: Text)
  datatype SideEffects = SideEffects(toolStarted: bool, durableResult: bool, worktreeChanged: bool, commitCreated: bool)
  /** `safe` is the verdict of `isSafePiRpcDiagnostic`. */
  datatype Diagnostic = Diagnostic(failureCode: FailureCode, boundary: Option<SideEffects>, safe: bool)

  datatype Candidate =
    | WorkerCandidate(fingerprint: Digest)
    | ReviewerCandidate(fingerprint: Digest)
    | ProviderCandidate(fingerprint: Digest, scope: Digest, lane: Lane, headSha: Text, provider: Text,
                        code: FailureCode, notBefore: Stamp)
  {
    function Rule(): Rule {
      match this
      case WorkerCandidate(_) => WorkerPreDispatch
      case ReviewerCandidate(_) => ReviewerSameHead
      case ProviderCandidate(_, _, _, _, _, _, _) => ProviderTransient
    }
  }

  datatype Incident = Incident(
    id: Text, blockClass: BlockClass, lane: IncidentLane, attemptId: Option<Text>, summary: Text, evidence: Digest,
    allowed: seq<RecoveryAction>, candidate: Option<Candidate>, diagnostic: Option<Diagnostic>, createdAt: Stamp)

  /** `diagnosisOk`: the structured diagnosis is absent or well formed. */
  datatype Advice = Advice(
    id: Text, incidentId: Text, evidence: Digest, action: RecoveryAction, summary: Text, brief: Text,
    refs: seq<Text>, unknowns: seq<Text>, diagnosisOk: bool)

  datatype Basis = AnalystAdvice | HumanDecision | PolicyRule
  datatype Approval = Approval(
    id: Text, jobRevision: int, incidentId: Text, analysisId: Option<Text>, action: RecoveryAction,
    basis: Option<Basis>, rule: Option<Rule>, fingerprint: Option<Digest>,
    actor: Text, reason: Text, createdAt: Stamp, consumedAt: Option<Stamp>)
  datatype AutoRecovery = AutoRecovery(
    approval: Approval, attemptId: Text, scope: Option<Digest>, lane: Option<Lane>, headSha: Option<Text>,
    provider: Option<Text>, code: Option<FailureCode>, notBefore: Option<Stamp>)
  datatype Reassessment = Reassessment(
    id: Text, jobRevision: int, incidentId: Text, analysisId: Text, replacementId: Text,
    actor: Text, reason: Text, createdAt: Stamp)
  datatype Cancellation = Cancellation(
    id: Text, jobRevision: int, incidentId: Text, analysisId: Text, actor: Text, reason: Text, createdAt: Stamp)

  datatype Bucket = Pass | Fail | Pending | Skipping | Cancel
  datatype Check = Check(name: Text, state: Text, bucket: Bucket, link: Text, diagnostic: Option<Text>)
  datatype CiFailure = CiFailure(headSha: Text, observedAt: Stamp, checks: seq<Check>)

  datatype Severity = Critical | Major | Minor
  datatype Finding = Finding(severity: Severity, summary: Text, evidence: Text)
  datatype WorkerStatus = WorkerCompleted | WorkerBlocked | WorkerFailed
  datatype ReviewStatus = Passes | Changes | ReviewBlocked | ReviewFailed
  datatype AttemptResult =
    | WorkerResult(jobId: Text, attemptId: Text, workerStatus: WorkerStatus, headSha: Option<Text>,
        failedCommands: seq<Text>)
    | ReviewerResult(jobId: Text, attemptId: Text, status: ReviewStatus, summary: Text,
        reviewedHeadSha: Option<Text>, findings: seq<Finding>)

  datatype Obligation = Obligation(severity: Option<Severity>, summary: Text, evidence: Option<Text>)
  datatype HandoffKind = ReviewChanges | ApprovedRecovery | CiRework
  datatype Source = Source(
    jobRevision: int, taskDigest: Digest, attemptId: Option<Text>, resultDigest: Option<Digest>,
        incidentId: Option<Text>,
    evidence: Option<Digest>, analysisId: Option<Text>, approvalId: Option<Text>, headSha: Option<Text>)
  datatype Target = Target(lane: Lane, baseSha: Text, expectedHeadSha: Option<Text>,
      expectedRemoteHeadSha: Option<Text>)
  datatype HandoffBody = HandoffBody(
    kind: HandoffKind, source: Source, target: Target, summary: Text, obligations: seq<Obligation>,
    evidenceRefs: seq<Text>, unknowns: seq<Text>, createdAt: Stamp)
  /** `handoff-` and the first half of the body's digest, or any other text. */
  datatype HandoffId = IdOf(body: HandoffBody) | OtherId(text: Text)
  datatype Handoff = Handoff(id: HandoffId, body: HandoffBody)

  datatype Stage = PreflightStage | StandardsStage | SpecStage | ValidationStage | FinalStage
  datatype Binding = Binding(stage: Stage, path: Text, digest: Digest, sourceAttemptId: Text)
  datatype ReceiptStatus = ReceiptPassed | ReceiptFailedChecks | ReceiptInfrastructure
  datatype ReceiptBinding = ReceiptBinding(path: Text, digest: Digest, status: ReceiptStatus)
  datatype Phase = Prepared | PaneReady | AgentReady | Running | Settled
  datatype Snapshot = Snapshot(piRpc: bool, provider: Option<Text>)
  datatype Envelope = Envelope(handoff: Option<Handoff>, inputs: Option<seq<Binding>>)

  datatype Attempt = Attempt(
    id: Text, lane: Lane, phase: Phase, round: int, baseSha: Text, expectedHeadSha: Option<Text>,
    expectedRemoteHeadSha: Option<Text>, hasHandle: bool, result: Option<AttemptResult>, snapshot: Option<Snapshot>,
    planDigest: Option<Digest>, receipt: Option<ReceiptBinding>, inputs: seq<Binding>, envelope: Option<Envelope>,
    reconciliations: int)

  datatype Job = Job(
    id: Text, revision: int, state: JobState, taskDigest: Digest, baseSha: Text, claimConfirmed: bool,
    headSha: Option<Text>, activeAttempt: Option<Attempt>, attempts: seq<Attempt>, maxReviewRounds: int,
    pendingHandoff: Option<Handoff>, pendingBrief: Text, incident: Option<Incident>, analysis: Option<Advice>,
    approval: Option<Approval>, recoveries: seq<AutoRecovery>, cancellation: Option<Cancellation>,
    reassessments: seq<Reassessment>, pullRequestHead: Option<Text>, ciFailure: Option<CiFailure>, ciReworks: int,
    analystTask: Option<Digest>, lastError: Option<Text>, updatedAt: Stamp)

  const MAX_CI_REWORKS := 2
  const MAX_RECONCILIATIONS := 1
  const MAX_RECOVERIES := 32
  const MAX_OBLIGATIONS := 100

  // ----- assertTypedHandoff -----

  predicate BoundedOrNull(t: Option<Text>, max: nat) {
    t.Some? ==> IsBounded(t.value, max)
  }

  predicate ShaOrNull(t: Option<Text>) {
    t.Some? ==> IsSha(t.value)
  }

  predicate DigestOrNull(d: Option<Digest>) {
    d.Some? ==> IsHex64(d.value)
  }

  predicate ObligationOk(o: Obligation) {
    IsBounded(o.summary, 10_000) && BoundedOrNull(o.evidence, 10_000)
  }

  predicate SourceOk(s: Source) {
    s.jobRevision >= 0 && IsHex64(s.taskDigest) && BoundedOrNull(s.attemptId, 512) && DigestOrNull(s.resultDigest)
    && BoundedOrNull(s.incidentId, 512) && DigestOrNull(s.evidence) && BoundedOrNull(s.analysisId, 512)
    && BoundedOrNull(s.approvalId, 512) && ShaOrNull(s.headSha)
  }

  predicate TargetOk(t: Target) {
    IsSha(t.baseSha) && ShaOrNull(t.expectedHeadSha) && ShaOrNull(t.expectedRemoteHeadSha)
  }

  predicate AllBounded(ts: seq<Text>, max: nat) {
    forall i :: 0 <= i < |ts| ==> IsBounded(ts[i], max)
  }

  predicate HandoffOk(h: Handoff) {
    && h.id == IdOf(h.body)
    && SourceOk(h.body.source) && TargetOk(h.body.target)
    && IsBounded(h.body.summary, 10_000)
    && |h.body.obligations| <= MAX_OBLIGATIONS
    && (forall i :: 0 <= i < |h.body.obligations| ==> ObligationOk(h.body.obligations[i]))
    && |h.body.evidenceRefs| <= 100 && AllBounded(h.body.evidenceRefs, 2_000)
    && |h.body.unknowns| <= 100 && AllBounded(h.body.unknowns, 2_000)
    && IsTime(h.body.createdAt)
  }

  // ----- assertJobInvariant, one predicate for each group of checks -----

  function ReadyState(lane: Lane): JobState {
    if lane.Worker? then WorkerReady else ReviewerReady
  }

  /** The work the next Attempt of a lane starts from. */
  function NextTarget(job: Job, lane: Lane): Target {
    if lane.Worker? then Target(lane, GetOr(job.headSha, job.baseSha), None, job.pullRequestHead)
    else Target(lane, job.baseSha, job.headSha, None)
  }

  predicate StateOk(job: Job) {
    && HasInk(job.id) && job.revision >= 0
    && (job.state.Blocked? ==> job.incident.Some?)
    && (job.state.RecoveryApproved? ==> job.approval.Some?)
    && (job.state.Cancelled? ==> job.cancellation.Some?)
    && !HasInk(job.pendingBrief)
    && ((job.state.PublishReady? || job.state.AwaitingMerge? || job.state.Done?)
      ==> job.headSha.Some? && job.headSha.value != [])
    && (job.analystTask.Some? ==> job.analystTask.value == job.taskDigest)
  }

  predicate PendingOk(job: Job) {
    job.pendingHandoff.Some? ==>
      var h := job.pendingHandoff.value;
      HandoffOk(h) && job.activeAttempt.None? && job.state == ReadyState(h.body.target.lane)
      && h.body.source.jobRevision + 1 == job.revision && h.body.source.taskDigest == job.taskDigest
      && h.body.target == NextTarget(job, h.body.target.lane)
  }

  predicate CancellationOk(c: Cancellation) {
    c.jobRevision >= 0 && IsBounded(c.id, 512) && IsBounded(c.incidentId, 512) && IsBounded(c.analysisId, 512)
    && IsBounded(c.actor, 512) && IsBounded(c.reason, 2_000) && IsTime(c.createdAt)
  }

  predicate IsFailedBucket(b: Bucket) {
    b.Fail? || b.Cancel?
  }

  predicate IsCiClass(c: BlockClass) {
    c.CiFailed? || c.CiReworkExhausted?
  }

  predicate CiOk(job: Job) {
    && 0 <= job.ciReworks <= MAX_CI_REWORKS
    && (job.ciFailure.Some? ==>
         var f := job.ciFailure.value;
         job.pullRequestHead == Some(f.headSha) && IsTime(f.observedAt) && |f.checks| > 0
         && forall i :: 0 <= i < |f.checks| ==> IsFailedBucket(f.checks[i].bucket))
    && (job.incident.Some? && IsCiClass(job.incident.value.blockClass) ==> job.ciFailure.Some?)
  }

  predicate IsTransient(c: FailureCode) {
    !c.OtherCode?
  }

  predicate IsRetry(a: RecoveryAction) {
    a.RetryWorker? || a.RetryReviewer?
  }

  predicate CandidateOk(jobId: Text, attemptId: Option<Text>, lane: IncidentLane, c: Candidate) {
    && IsHex64(c.fingerprint)
    && (c.ProviderCandidate? ==>
         attemptId.Some? && lane == Of(c.lane) && IsSha(c.headSha) && IsBounded(c.provider, 512) && IsTransient(c.code)
         && IsHex64(c.scope) && IsTime(c.notBefore)
         && c.fingerprint == ProviderAttempt(c.provider, c.code, attemptId, c.headSha)
         && c.scope == ProviderScope(jobId, c.lane, c.headSha))
  }

  predicate IncidentOk(jobId: Text, i: Incident) {
    && |i.allowed| > 0 && Distinct(i.allowed)
    && (forall k :: 0 <= k < |i.allowed| ==> !i.allowed[k].OtherAction?)
    && (i.candidate.Some? ==> CandidateOk(jobId, i.attemptId, i.lane, i.candidate.value))
    && (i.diagnostic.Some? ==> i.diagnostic.value.safe)
  }

  predicate AdviceOk(a: Advice) {
    !a.action.OtherAction? && a.diagnosisOk
  }

  predicate ApprovalOk(a: Approval, history: seq<AutoRecovery>) {
    && IsRetry(a.action)
    && (if a.basis == Some(PolicyRule) && a.analysisId.None? then a.rule == Some(ProviderTransient)
        else a.analysisId.Some? && IsBounded(a.analysisId.value, 512))
    && (a.basis == Some(HumanDecision) ==> IsBounded(a.actor, 512) && IsBounded(a.reason, 2_000) && IsTime(a.createdAt))
    && (a.basis == Some(PolicyRule) ==> HasRecord(a, history))
  }

  predicate HasRecord(a: Approval, history: seq<AutoRecovery>) {
    exists i :: 0 <= i < |history| && Records(history[i], a)
  }

  predicate Records(r: AutoRecovery, a: Approval) {
    r.approval.id == a.id && r.approval.rule == a.rule && r.approval.fingerprint == a.fingerprint
  }

  function RetryOf(lane: Lane): RecoveryAction {
    if lane.Worker? then RetryWorker else RetryReviewer
  }

  predicate ProviderRecordOk(jobId: Text, r: AutoRecovery) {
    && r.lane.Some? && r.approval.action == RetryOf(r.lane.value)
    && r.scope.Some? && r.headSha.Some? && IsSha(r.headSha.value)
    && r.provider.Some? && IsBounded(r.provider.value, 512) && r.code.Some? && IsTransient(r.code.value)
    && r.notBefore.Some?
    && IsTime(r.notBefore.value)
    && !Earlier(r.approval.createdAt, r.notBefore.value)
    && r.approval.fingerprint == Some(ProviderAttempt(r.provider.value, r.code.value, Some(r.attemptId),
         r.headSha.value))
    && r.scope == Some(ProviderScope(jobId, r.lane.value, r.headSha.value))
  }

  predicate RecordOk(jobId: Text, r: AutoRecovery) {
    var a := r.approval;
    && a.basis == Some(PolicyRule) && IsRetry(a.action) && a.rule.Some?
    && (a.rule == Some(WorkerPreDispatch) ==> a.action.RetryWorker?)
    && (a.rule == Some(ReviewerSameHead) ==> a.action.RetryReviewer?)
    && (a.rule == Some(ProviderTransient) ==> ProviderRecordOk(jobId, r))
    && a.fingerprint.Some? && IsHex64(a.fingerprint.value)
    && IsBounded(a.id, 512) && IsBounded(a.incidentId, 512)
    && (if a.analysisId.None? then a.rule == Some(ProviderTransient) else IsBounded(a.analysisId.value, 512))
    && IsBounded(r.attemptId, 512) && IsBounded(a.actor, 512) && IsBounded(a.reason, 2_000)
    && a.jobRevision >= 0 && IsTime(a.createdAt) && (a.consumedAt.Some? ==> IsTime(a.consumedAt.value))
  }

  /** No two records share an id or a fingerprint, and no two Provider records share a scope. */
  predicate Conflict(a: AutoRecovery, b: AutoRecovery) {
    || a.approval.id == b.approval.id
    || a.approval.fingerprint == b.approval.fingerprint
    || (a.approval.rule == Some(ProviderTransient) && b.approval.rule == Some(ProviderTransient) && a.scope == b.scope)
  }

  predicate HistoryOk(jobId: Text, history: seq<AutoRecovery>) {
    && |history| <= MAX_RECOVERIES
    && (forall i :: 0 <= i < |history| ==> RecordOk(jobId, history[i]))
    && (forall i, j :: 0 <= i < j < |history| ==> !Conflict(history[i], history[j]))
  }

  predicate ReassessmentOk(r: Reassessment) {
    r.jobRevision >= 0 && IsBounded(r.id, 512) && IsBounded(r.incidentId, 512) && IsBounded(r.analysisId, 512)
    && IsBounded(r.replacementId, 512)
    && IsBounded(r.actor, 512)
    && IsBounded(r.reason, 2_000)
    && IsTime(r.createdAt)
  }

  predicate ReassessmentsOk(rs: seq<Reassessment>) {
    forall i :: 0 <= i < |rs| ==> ReassessmentOk(rs[i])
  }

  predicate LaneStateOk(state: JobState, active: Option<Attempt>) {
    && ((state.WorkerRunning? || state.ReviewerRunning?) ==> active.Some?)
    && (active.Some? ==>
         (if active.value.lane.Worker? then state.WorkerRunning? else state.ReviewerRunning?)
         || state.Blocked? || state.RecoveryApproved? || state.Cancelled?)
  }

  predicate ActiveOk(a: Attempt, taskDigest: Digest) {
    && ShaOrNull(a.expectedRemoteHeadSha) && DigestOrNull(a.planDigest)
    && (a.snapshot.Some? ==> a.planDigest.Some?)
    && (a.receipt.Some? ==>
         a.lane.Reviewer? && IsBounded(a.receipt.value.path, 8_192) && IsHex64(a.receipt.value.digest))
    && 0 <= a.reconciliations <= MAX_RECONCILIATIONS
    && (a.envelope.Some? && a.envelope.value.handoff.Some? ==>
         var h := a.envelope.value.handoff.value;
         HandoffOk(h) && h.body.source.taskDigest == taskDigest
         && h.body.target == Target(a.lane, a.baseSha, a.expectedHeadSha, a.expectedRemoteHeadSha))
  }

  function Find(attempts: seq<Attempt>, id: Text): Option<Attempt> {
    if attempts == [] then None
    else if attempts[0].id == id then Some(attempts[0])
    else Find(attempts[1..], id)
  }

  predicate BindingOk(b: Binding, attempts: seq<Attempt>) {
    var source := Find(attempts, b.sourceAttemptId);
    source.Some? && source.value.lane.Reviewer? && source.value.phase.Settled?
    && |b.path| > 0 && b.path[0] == 0x2F && IsBounded(b.path, 8_192) && IsHex64(b.digest)
  }

  predicate InputsOk(a: Attempt, attempts: seq<Attempt>) {
    a.inputs == [] || (
      && a.lane.Reviewer? && |a.inputs| <= 5
      && (forall i, j ::
           0 <= i < j < |a.inputs| ==>
             a.inputs[i].stage != a.inputs[j].stage && a.inputs[i].digest != a.inputs[j].digest)
      && (forall i :: 0 <= i < |a.inputs| ==> BindingOk(a.inputs[i], attempts))
      && (forall i :: 0 <= i < |a.inputs| && a.inputs[i].stage.ValidationStage? ==>
           a.receipt.Some? && a.receipt.value.path == a.inputs[i].path && a.receipt.value.digest == a.inputs[i].digest)
      && (a.envelope.Some? && a.envelope.value.inputs.Some? ==> a.envelope.value.inputs.value == a.inputs))
  }

  function BindingDigests(bs: seq<Binding>): (ds: seq<Digest>)
    ensures |ds| == |bs| && forall i :: 0 <= i < |bs| ==> ds[i] == bs[i].digest
  {
    seq(|bs|, i requires 0 <= i < |bs| => bs[i].digest)
  }

  /** Every checkpoint digest consumed by a list of Attempts, in order. */
  function Consumed(attempts: seq<Attempt>): seq<Digest> {
    if attempts == [] then []
    else Consumed(attempts[..|attempts| - 1]) + BindingDigests(attempts[|attempts| - 1].inputs)
  }

  function AllAttempts(attempts: seq<Attempt>, active: Option<Attempt>): seq<Attempt> {
    attempts + (if active.Some? then [active.value] else [])
  }

  predicate AttemptsOk(attempts: seq<Attempt>, active: Option<Attempt>, taskDigest: Digest) {
    && (forall i :: 0 <= i < |AllAttempts(attempts, active)| ==> InputsOk(AllAttempts(attempts, active)[i], attempts))
    && Distinct(Consumed(AllAttempts(attempts, active)))
    && (active.Some? ==> ActiveOk(active.value, taskDigest))
  }

  predicate JobInvariant(job: Job) {
    && StateOk(job) && PendingOk(job)
    && (job.cancellation.Some? ==> CancellationOk(job.cancellation.value))
    && CiOk(job)
    && (job.incident.Some? ==> IncidentOk(job.id, job.incident.value))
    && (job.analysis.Some? ==> AdviceOk(job.analysis.value))
    && (job.approval.Some? ==> ApprovalOk(job.approval.value, job.recoveries))
    && HistoryOk(job.id, job.recoveries)
    && ReassessmentsOk(job.reassessments)
    && LaneStateOk(job.state, job.activeAttempt)
    && AttemptsOk(job.attempts, job.activeAttempt, job.taskDigest)
  }

  /** `evolveJob`: the patch is the record update the caller applies first. */
  function Evolve(patched: Job, now: Stamp): Job {
    patched.(revision := patched.revision + 1, updatedAt := now)
  }
}
