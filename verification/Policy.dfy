module Policy {
  // Recovery policy: which retries an incident may have, when policy itself may take one,
  // and what an operator may decide.

  import opened Options
  import opened Utf16
  import opened Ledger

  const BACKOFF_MS := 5_000
  function AutoActor(): Text {
    Ascii("harness:auto-recovery")
  }

  function AllowedActions(c: BlockClass, lane: IncidentLane): seq<RecoveryAction> {
    match c
    case AgentDecision => [RetryWorker, Hold]
    case AgentBlocked => [RetryWorker, Hold]
    case ReviewUncertain => [RetryWorker, Hold]
    case CiFailed => [RetryWorker, Hold]
    case ReviewerPreflightDirty => if lane == Of(Reviewer) then [RetryReviewer, Hold] else [Hold]
    case ValidationInfrastructure => if lane == Of(Reviewer) then [RetryReviewer, Hold] else [Hold]
    case InfrastructureExhausted => if lane == Of(Reviewer) then [RetryReviewer, Hold] else [RetryWorker, Hold]
    case IntegrityViolation => [Hold]
    case StaleTask => [Hold]
    case CiReworkExhausted => [Hold]
    case AnalystUnavailable => [Hold]
  }

  // ----- the policy's own candidate -----

  predicate NoSideEffects(d: Option<Diagnostic>) {
    d.Some? && d.value.boundary.Some?
    && var b := d.value.boundary.value;
       !b.toolStarted && !b.durableResult && !b.worktreeChanged && !b.commitCreated
  }

  function WorkedHead(a: Attempt): Text {
    GetOr(a.expectedHeadSha, a.baseSha)
  }

  function AttemptProvider(a: Attempt): Option<Text> {
    if a.snapshot.Some? then a.snapshot.value.provider else None
  }

  /** `new Date(ms).toISOString()`. */
  function IsoStamp(ms: int): Stamp {
    Stamp(Some(ms), 0)
  }

  function ProviderCandidateFor(job: Job, a: Attempt, d: Option<Diagnostic>,
      observedAt: Option<Stamp>): Option<Candidate> {
    if !(a.snapshot.Some? && a.snapshot.value.piRpc && AttemptProvider(a).Some? && AttemptProvider(a).value != []
         && observedAt.Some? && IsTime(observedAt.value) && IsSha(WorkedHead(a))
         && d.Some? && IsTransient(d.value.failureCode) && NoSideEffects(d)) then None
    else
      var provider, code, head := AttemptProvider(a).value, d.value.failureCode, WorkedHead(a);
      Some(ProviderCandidate(ProviderAttempt(provider, code, Some(a.id), head), ProviderScope(job.id, a.lane, head),
                             a.lane, head, provider, code, IsoStamp(observedAt.value.ms.value + BACKOFF_MS)))
  }

  function CandidateFor(job: Job, a: Attempt, d: Option<Diagnostic>, observedAt: Option<Stamp>): Option<Candidate> {
    var provider := ProviderCandidateFor(job, a, d, observedAt);
    if a.result.Some? then None
    else if provider.Some? then provider
    else if a.phase.Running? || a.phase.Settled? then None
    else if a.lane.Worker? then Some(WorkerCandidate(WorkerBase(a.baseSha, a.expectedRemoteHeadSha)))
    else if job.headSha.None? || job.headSha.value == [] || a.expectedHeadSha != job.headSha then None
    else Some(ReviewerCandidate(ReviewerHead(a.baseSha, job.headSha.value)))
  }

  function MakeIncident(jobId: Text, jobRevision: int, lane: IncidentLane, attemptId: Option<Text>, c: BlockClass,
      summary: Text,
                        candidate: Option<Candidate>, diagnostic: Option<Diagnostic>, createdAt: Stamp,
                            id: Text): Incident {
    Incident(id, c, lane, attemptId, summary,
             OfIncident(jobId, jobRevision, lane, attemptId, c, summary, candidate, diagnostic, createdAt),
             AllowedActions(c, lane), candidate, diagnostic, createdAt)
  }

  // ----- automaticRecoveryFor -----

  datatype Offer = Offer(candidate: Candidate, action: RecoveryAction, attemptId: Text)

  function CandidateAction(c: Candidate): RecoveryAction {
    match c
    case WorkerCandidate(_) => RetryWorker
    case ReviewerCandidate(_) => RetryReviewer
    case ProviderCandidate(_, _, lane, _, _, _, _) => RetryOf(lane)
  }

  predicate UsedFingerprint(history: seq<AutoRecovery>, fingerprint: Digest) {
    exists i :: 0 <= i < |history| && history[i].approval.fingerprint == Some(fingerprint)
  }

  predicate UsedScope(history: seq<AutoRecovery>, scope: Digest) {
    exists i :: 0 <= i < |history| && history[i].scope == Some(scope)
  }

  predicate AdviceBacks(i: Incident, c: Candidate, advice: Option<Advice>) {
    advice.Some? && advice.value.incidentId == i.id && advice.value.action == CandidateAction(c)
        && HasInk(advice.value.brief)
    && (c.WorkerCandidate? ==> advice.value.unknowns == [])
  }

  predicate ProviderReady(job: Job, i: Incident, a: Attempt, c: Candidate, now: Option<Stamp>)
    requires c.ProviderCandidate?
  {
    && now.Some? && IsTime(now.value) && !Earlier(now.value, c.notBefore)
    && a.lane == c.lane && WorkedHead(a) == c.headSha && AttemptProvider(a) == Some(c.provider)
    && i.diagnostic.Some?
    && i.diagnostic.value.failureCode == c.code
    && IsTransient(c.code)
    && NoSideEffects(i.diagnostic)
    && !UsedScope(job.recoveries, c.scope)
  }

  predicate Offers(job: Job, advice: Option<Advice>, now: Option<Stamp>) {
    && job.state.Blocked? && job.approval.None? && job.incident.Some? && job.activeAttempt.Some?
    && var i, a := job.incident.value, job.activeAttempt.value;
    && i.blockClass.InfrastructureExhausted? && i.candidate.Some?
    && i.attemptId == Some(a.id) && i.lane == Of(a.lane) && a.phase.Settled? && a.result.None?
    && var c := i.candidate.value;
    && (if c.ProviderCandidate? then ProviderReady(job, i, a, c, now) else AdviceBacks(i, c, advice))
    && CandidateAction(c) in i.allowed && CandidateAction(c) in AllowedActions(i.blockClass, i.lane)
    && (c.ReviewerCandidate? ==>
         a.lane.Reviewer? && job.headSha.Some? && job.headSha.value != [] && a.expectedHeadSha == job.headSha)
    && (c.WorkerCandidate? ==> a.lane.Worker?)
    && !UsedFingerprint(job.recoveries, c.fingerprint)
  }

  function AutomaticFor(job: Job, advice: Option<Advice>, now: Option<Stamp>): Option<Offer> {
    if Offers(job, advice, now) then
      var c := job.incident.value.candidate.value;
      Some(Offer(c, CandidateAction(c), job.activeAttempt.value.id))
    else None
  }

  predicate BackoffPending(job: Job, advice: Option<Advice>, now: Stamp) {
    && job.incident.Some?
    && job.incident.value.candidate.Some?
    && job.incident.value.candidate.value.ProviderCandidate?
    && var notBefore := job.incident.value.candidate.value.notBefore;
       IsTime(now) && Earlier(now, notBefore) && AutomaticFor(job, advice, Some(notBefore)).Some?
  }

  /** The record an offer is turned into, and the job that carries it. */
  function RecordOf(job: Job, advice: Option<Advice>, o: Offer, now: Stamp, id: Text): AutoRecovery
    requires job.incident.Some?
  {
    var c := o.candidate;
    var approval := Approval(id, job.revision, job.incident.value.id, if advice.Some? then Some(advice.value.id)
        else None,
                             o.action, Some(PolicyRule), Some(c.Rule()), Some(c.fingerprint),
                             AutoActor(), RuleText(c.Rule()), now, None);
    if c.ProviderCandidate?
    then AutoRecovery(approval, o.attemptId, Some(c.scope), Some(c.lane), Some(c.headSha), Some(c.provider),
        Some(c.code), Some(c.notBefore))
    else AutoRecovery(approval, o.attemptId, None, None, None, None, None, None)
  }

  function RuleText(r: Rule): Text {
    match r
    case WorkerPreDispatch => Ascii("worker_pre_dispatch_infrastructure")
    case ReviewerSameHead => Ascii("reviewer_same_head_infrastructure")
    case ProviderTransient => Ascii("provider_pre_side_effect_transient")
  }

  function Authorize(job: Job, advice: Option<Advice>, o: Offer, now: Stamp, id: Text): Job
    requires job.incident.Some?
  {
    var r := RecordOf(job, advice, o, now, id);
    Evolve(job.(state := RecoveryApproved, analysis := advice, approval := Some(r.approval),
        recoveries := job.recoveries + [r]), now)
  }

  predicate MatchesApproval(job: Job, c: Candidate, a: Approval, r: AutoRecovery) {
    && r.approval.id == a.id
    && r.approval.incidentId == a.incidentId
    && r.approval.analysisId == a.analysisId
    && job.activeAttempt.Some? && r.attemptId == job.activeAttempt.value.id
    && r.approval.action == a.action
    && r.approval.rule == a.rule
    && r.approval.fingerprint == a.fingerprint
    && (c.ProviderCandidate? ==>
         r.scope == Some(c.scope) && r.lane == Some(c.lane) && r.headSha == Some(c.headSha)
         && r.provider == Some(c.provider)
         && r.code == Some(c.code)
         && r.notBefore == Some(c.notBefore))
  }

  predicate IsAutomaticApproval(job: Job, a: Approval) {
    && a.basis == Some(PolicyRule) && job.incident.Some? && job.incident.value.candidate.Some?
    && var c := job.incident.value.candidate.value;
    && a.rule == Some(c.Rule()) && a.fingerprint == Some(c.fingerprint)
    && exists i :: 0 <= i < |job.recoveries| && MatchesApproval(job, c, a, job.recoveries[i])
  }

  // ----- what an operator may decide -----

  predicate DecisionEligible(job: Job) {
    && job.incident.Some? && job.analysis.Some? && job.activeAttempt.Some?
    && var i, n, a := job.incident.value, job.analysis.value, job.activeAttempt.value;
    && i.blockClass.ReviewUncertain? && i.lane == Of(Reviewer) && i.attemptId == Some(a.id)
    && RetryWorker in i.allowed && RetryWorker in AllowedActions(i.blockClass, i.lane)
    && n.incidentId == i.id && n.action.Hold? && n.brief == [] && |n.unknowns| > 0
    && job.headSha.Some? && job.maxReviewRounds >= 1
    && a.lane.Reviewer?
    && a.phase.Settled?
    && a.round >= job.maxReviewRounds
    && a.expectedHeadSha == job.headSha
    && a.result.Some?
    && a.result.value.ReviewerResult?
    && a.result.value.status.Changes?
    && a.result.value.reviewedHeadSha == job.headSha
    && exists k :: 0 <= k < |a.result.value.findings| && !a.result.value.findings[k].severity.Minor?
  }

  function Retries(actions: seq<RecoveryAction>): seq<RecoveryAction> {
    if actions == [] then []
    else (if IsRetry(actions[0]) then [actions[0]] else []) + Retries(actions[1..])
  }

  function PreflightResidue(): Text {
    Ascii("reviewer modified the worktree ") + Ascii("outside Harness result files:")
  }

  function AnalystFailed(): Text {
    Ascii("Analyst diagnosis failed closed: ")
  }

  function HeadLeft(): Text {
    Ascii("worktree head ")
  }

  function HeadMiddle(): Text {
    Ascii(" != worker result ")
  }

  function LowerUnit(u: CodeUnit): CodeUnit {
    if 0x41 <= u <= 0x5A then u + 0x20 else u
  }

  function Lower(t: Text): (r: Text)
    ensures |r| == |t|
  {
    seq(|t|, i requires 0 <= i < |t| => LowerUnit(t[i]))
  }

  /** The two heads named by `worktree HEAD <40 hex> != worker result <40 hex>`, in any case. */
  function NamedHeads(summary: Text): Option<(Text, Text)> {
    var s := Lower(summary);
    if |s| == 112 && s[..14] == HeadLeft() && IsHexText(s[14..54], 40) && s[54..72] == HeadMiddle()
        && IsHexText(s[72..], 40)
    then Some((s[14..54], s[72..])) else None
  }

  predicate LegacyHeadMismatch(job: Job) {
    && job.approval.None? && job.pullRequestHead.None? && job.incident.Some? && job.activeAttempt.Some?
    && var i, a := job.incident.value, job.activeAttempt.value;
    && i.blockClass.IntegrityViolation? && i.lane == Of(Worker) && i.allowed == [Hold]
    && a.lane.Worker?
    && a.phase.Settled?
    && i.attemptId == Some(a.id)
    && a.baseSha == GetOr(job.headSha, job.baseSha)
    && a.result.Some? && a.result.value.WorkerResult?
    && var r := a.result.value;
    && r.workerStatus.WorkerCompleted?
    && r.jobId == job.id
    && r.attemptId == a.id
    && r.failedCommands == []
    && r.headSha.Some? && r.headSha.value != []
    && var heads := NamedHeads(i.summary);
    && heads.Some? && heads.value.0 != heads.value.1 && heads.value.0[..7] == heads.value.1[..7]
    && heads.value.1 == Lower(r.headSha.value)
  }

  predicate ControllerAnalystFailure(n: Advice) {
    n.action.Hold? && n.brief == [] && n.refs == [] && |n.unknowns| == 1 && n.summary == AnalystFailed() + n.unknowns[0]
  }

  /** The incident's Reviewer attempt, still bound to the job's head. */
  predicate ReviewerAtHead(job: Job, i: Incident) {
    i.lane == Of(Reviewer) && job.activeAttempt.Some? && job.activeAttempt.value.lane.Reviewer?
    && job.activeAttempt.value.expectedHeadSha == job.headSha
  }

  predicate NeverStarted(job: Job) {
    job.activeAttempt.Some? && !job.activeAttempt.value.hasHandle && job.activeAttempt.value.result.None?
  }

  predicate HeldReviewerBlock(job: Job, i: Incident) {
    && i.blockClass.ReviewUncertain? && ReviewerAtHead(job, i)
    && var r := job.activeAttempt.value.result;
       r.Some? && r.value.ReviewerResult? && (r.value.status.ReviewBlocked? || r.value.status.ReviewFailed?)
       && r.value.reviewedHeadSha == job.headSha
  }

  predicate LegacyPreflight(job: Job, i: Incident) {
    i.blockClass.IntegrityViolation? && ReviewerAtHead(job, i) && i.allowed == [Hold] && NeverStarted(job)
    && PreflightResidue() <= i.summary
  }

  predicate HeldCi(job: Job, i: Incident) {
    && job.approval.None?
    && IsCiClass(i.blockClass)
    && i.lane.Controller?
    && i.attemptId.None?
    && job.activeAttempt.None?
    && job.pullRequestHead.Some?
    && job.ciFailure.Some?
    && job.ciFailure.value.headSha == job.pullRequestHead.value
    && job.headSha == job.pullRequestHead && job.ciReworks < MAX_CI_REWORKS
  }

  predicate LegacyCiExhausted(job: Job, i: Incident) {
    HeldCi(job, i) && i.blockClass.CiReworkExhausted? && i.allowed == [Hold]
  }

  predicate ExactAttempt(job: Job, i: Incident) {
    job.approval.None? && job.activeAttempt.Some? && Of(job.activeAttempt.value.lane) == i.lane
    && i.attemptId == Some(job.activeAttempt.value.id) && job.activeAttempt.value.phase.Settled?
  }

  /** A held incident that may be analysed again under its own class. */
  predicate HeldAsItIs(job: Job, i: Incident, n: Advice) {
    || (i.blockClass.InfrastructureExhausted? && job.activeAttempt.Some? && job.activeAttempt.value.result.None?)
    || (i.blockClass.ValidationInfrastructure? && ReviewerAtHead(job, i) && NeverStarted(job))
    || HeldReviewerBlock(job, i)
    || (i.blockClass.ReviewerPreflightDirty? && ReviewerAtHead(job, i) && NeverStarted(job))
    || (n.evidence == i.evidence && ControllerAnalystFailure(n))
    || (HeldCi(job, i) && i.blockClass.CiFailed?)
  }

  function ReassessmentClass(job: Job): Option<BlockClass> {
    if !(job.state.Blocked? && job.incident.Some? && job.analysis.Some?) then None
    else
      var i, n := job.incident.value, job.analysis.value;
      var retries := Retries(i.allowed);
      if n.incidentId != i.id || !n.action.Hold? || !(ExactAttempt(job, i) || HeldCi(job, i)) then None
      else if LegacyHeadMismatch(job) then Some(InfrastructureExhausted)
      else if LegacyPreflight(job, i) then Some(ReviewerPreflightDirty)
      else if LegacyCiExhausted(job, i) then Some(CiFailed)
      else if |retries| != 1 || retries[0] !in AllowedActions(i.blockClass, i.lane) || !HeldAsItIs(job, i, n) then None
      else if HeldReviewerBlock(job, i) then Some(InfrastructureExhausted)
      else Some(i.blockClass)
  }

  datatype OperatorAction = ApproveRetry(effect: RecoveryAction) | ResolveDecision | Reassess | CancelAndRequeue

  function OperatorActions(job: Job): seq<OperatorAction> {
    if !(job.state.Blocked? && job.approval.None? && job.incident.Some? && job.analysis.Some?
         && job.analysis.value.incidentId == job.incident.value.id) then []
    else
      var i, n := job.incident.value, job.analysis.value;
      (if IsRetry(n.action) && n.action in i.allowed && n.action in AllowedActions(i.blockClass, i.lane)
          then [ApproveRetry(n.action)] else [])
      + (if DecisionEligible(job) then [ResolveDecision] else [])
      + (if ReassessmentClass(job).Some? then [Reassess] else [])
      + (if n.action.Hold? && job.claimConfirmed && job.pullRequestHead.None? then [CancelAndRequeue] else [])
  }

  // ----- retry authority -----

  /** Every class offers holding and at most one retry; a Reviewer retry needs a Reviewer incident,
    * and a Worker retry is never offered for a Reviewer's infrastructure. */
  lemma RetryAuthority(c: BlockClass, lane: IncidentLane)
    ensures Hold in AllowedActions(c, lane)
      && |Retries(AllowedActions(c, lane))| <= 1
      && Distinct(AllowedActions(c, lane))
    ensures RetryReviewer in AllowedActions(c, lane) <==>
      lane == Of(Reviewer) && (c.ReviewerPreflightDirty? || c.ValidationInfrastructure? || c.InfrastructureExhausted?)
    ensures RetryWorker in AllowedActions(c, lane) <==>
      c.AgentDecision? || c.AgentBlocked? || c.ReviewUncertain? || c.CiFailed?
          || (c.InfrastructureExhausted? && lane != Of(Reviewer))
  {
    var xs := AllowedActions(c, lane);
    assert xs[0] in xs && xs[|xs| - 1] == Hold;
    assert xs[1..] == [] || xs[1..] == [Hold];
    assert [Hold][1..] == [] && Retries([Hold]) == [];
  }

  /** A new incident is sound when its candidate and its diagnostic are. */
  lemma MadeIncidentOk(jobId: Text, revision: int, lane: IncidentLane, attemptId: Option<Text>, c: BlockClass,
      summary: Text, candidate: Option<Candidate>, diagnostic: Option<Diagnostic>, at: Stamp, id: Text)
    requires candidate.Some? ==> CandidateOk(jobId, attemptId, lane, candidate.value)
    requires diagnostic.Some? ==> diagnostic.value.safe
    ensures IncidentOk(jobId, MakeIncident(jobId, revision, lane, attemptId, c, summary, candidate, diagnostic, at, id))
  {
    RetryAuthority(c, lane);
    hide CandidateOk;
    assert Hold in AllowedActions(c, lane);
  }

  lemma {:induction false} RetriesAre(actions: seq<RecoveryAction>, a: RecoveryAction)
    ensures a in Retries(actions) <==> a in actions && IsRetry(a)
  {
    if actions != [] { RetriesAre(actions[1..], a); }
  }

  /** A retry among a class's actions is its only one. */
  lemma OnlyRetry(c: BlockClass, lane: IncidentLane, a: RecoveryAction)
    requires a in AllowedActions(c, lane) && IsRetry(a)
    ensures Retries(AllowedActions(c, lane)) == [a]
  {
    var xs := AllowedActions(c, lane);
    assert xs == [a, Hold];
    assert xs[1..] == [Hold] && [Hold][1..] == [];
    assert Retries([Hold]) == [];
  }

  /** The branches a reassessment's class comes from. */
  lemma ReassessmentBranches(job: Job)
    requires ReassessmentClass(job).Some?
    ensures job.incident.Some? && job.analysis.Some?
    ensures var i, c := job.incident.value, ReassessmentClass(job).value;
      if LegacyHeadMismatch(job) then c.InfrastructureExhausted?
      else if LegacyPreflight(job, i) then c.ReviewerPreflightDirty?
      else if LegacyCiExhausted(job, i) then c.CiFailed?
      else |Retries(i.allowed)| == 1 && Retries(i.allowed)[0] in AllowedActions(i.blockClass, i.lane)
           && c == if HeldReviewerBlock(job, i) then InfrastructureExhausted else i.blockClass
  {
    hide LegacyHeadMismatch, LegacyPreflight, LegacyCiExhausted, HeldReviewerBlock, HeldAsItIs, ExactAttempt,
        HeldCi, Retries, AllowedActions;
  }

  /** Which incidents the four exceptions are about. */
  lemma ExceptionClasses(job: Job)
    requires job.incident.Some?
    ensures var i := job.incident.value;
      && (LegacyHeadMismatch(job) ==> i.blockClass.IntegrityViolation? && i.lane == Of(Worker))
      && (LegacyPreflight(job, i) ==> i.blockClass.IntegrityViolation? && i.lane == Of(Reviewer))
      && (LegacyCiExhausted(job, i) ==> i.blockClass.CiReworkExhausted?)
      && (HeldReviewerBlock(job, i) ==> i.blockClass.ReviewUncertain? && i.lane == Of(Reviewer))
  {
  }

  /** A reassessment always leads to a class with exactly one retry for its lane. Unless the class changes, it is
    * the one retry the held incident already allowed; and the class changes only in the four named cases. */
  lemma ReassessmentAuthority(job: Job)
    requires ReassessmentClass(job).Some?
    ensures var i, c := job.incident.value, ReassessmentClass(job).value;
      |Retries(AllowedActions(c, i.lane))| == 1
      && (if LegacyHeadMismatch(job) || LegacyPreflight(job, i) || LegacyCiExhausted(job, i)
           || HeldReviewerBlock(job, i)
          then c != i.blockClass && !c.IntegrityViolation?
          else c == i.blockClass && Retries(i.allowed) == Retries(AllowedActions(c, i.lane)))
  {
    ReassessmentBranches(job);
    ExceptionClasses(job);
    var i, c := job.incident.value, ReassessmentClass(job).value;
    if c == i.blockClass {
      hide ReassessmentClass, LegacyHeadMismatch, LegacyPreflight, LegacyCiExhausted, HeldReviewerBlock, Retries,
          AllowedActions;
      var a := Retries(i.allowed)[0];
      RetriesAre(i.allowed, a);
      OnlyRetry(c, i.lane, a);
      assert Retries(i.allowed) == [a];
    } else {
      hide ReassessmentClass, LegacyHeadMismatch, LegacyPreflight, LegacyCiExhausted, HeldReviewerBlock, Retries;
      OnlyRetry(c, i.lane, AllowedActions(c, i.lane)[0]);
    }
  }

  // ----- exactly when an incident may be analysed again -----

  /** The incident's own Attempt has settled. */
  ghost predicate AttemptSettled(i: Incident, a: Option<Attempt>) {
    a.Some? && Of(a.value.lane) == i.lane && i.attemptId == Some(a.value.id) && a.value.phase.Settled?
  }

  /** The incident's Reviewer Attempt, bound to the job's head, never ran. */
  ghost predicate ReviewerUnused(job: Job, i: Incident, a: Option<Attempt>) {
    && i.lane == Of(Reviewer) && a.Some? && a.value.lane.Reviewer? && a.value.expectedHeadSha == job.headSha
    && !a.value.hasHandle && a.value.result.None?
  }

  /** A Reviewer reported, at the job's head, that it was blocked or failed. */
  ghost predicate ReviewStuck(job: Job, i: Incident, a: Option<Attempt>) {
    && i.blockClass.ReviewUncertain? && i.lane == Of(Reviewer)
    && a.Some? && a.value.lane.Reviewer? && a.value.expectedHeadSha == job.headSha
    && a.value.result.Some? && a.value.result.value.ReviewerResult?
    && a.value.result.value.reviewedHeadSha == job.headSha
    && (a.value.result.value.status.ReviewBlocked? || a.value.result.value.status.ReviewFailed?)
  }

  /** The failed checks the incident is about are still those of the pull request, and a rework is left. */
  ghost predicate ChecksHeld(job: Job, i: Incident) {
    && (i.blockClass.CiFailed? || i.blockClass.CiReworkExhausted?) && i.lane.Controller? && i.attemptId.None?
    && job.activeAttempt.None? && job.ciReworks < 2 && job.ciFailure.Some?
    && job.pullRequestHead == Some(job.ciFailure.value.headSha) && job.headSha == Some(job.ciFailure.value.headSha)
  }

  /** A completed Worker whose worktree head differs from the head it reported, though not in the first seven digits. */
  ghost predicate WorkerHeadMoved(job: Job, i: Incident, a: Option<Attempt>) {
    && job.pullRequestHead.None? && i.blockClass.IntegrityViolation? && i.lane == Of(Worker) && i.allowed == [Hold]
    && a.Some? && a.value.lane.Worker? && a.value.phase.Settled? && i.attemptId == Some(a.value.id)
    && a.value.baseSha == (if job.headSha.Some? then job.headSha.value else job.baseSha)
    && a.value.result.Some? && a.value.result.value.WorkerResult?
    && var r := a.value.result.value;
    && r.workerStatus.WorkerCompleted? && r.jobId == job.id && r.attemptId == a.value.id && |r.failedCommands| == 0
    && r.headSha.Some? && |r.headSha.value| > 0
    && exists actual, reported :: NamesHeads(i.summary, actual, reported) && actual != reported
         && actual[..7] == reported[..7] && reported == Lower(r.headSha.value)
  }

  /** The summary names these two heads, once its letters are put in lower case. */
  ghost predicate NamesHeads(summary: Text, actual: Text, reported: Text) {
    && |actual| == 40 && |reported| == 40
    && (forall k :: 0 <= k < 40 ==> IsHexUnit(actual[k]) && IsHexUnit(reported[k]))
    && Lower(summary) == Ascii("worktree head ") + actual + Ascii(" != worker result ") + reported
  }

  /** A Reviewer that never ran left files in the worktree. */
  ghost predicate ResidueLeft(job: Job, i: Incident, a: Option<Attempt>) {
    && i.blockClass.IntegrityViolation? && i.allowed == [Hold] && ReviewerUnused(job, i, a)
    && PreflightResidue() <= i.summary
  }

  /** The incident allows exactly one retry, and its class offers it. */
  ghost predicate SoleRetry(i: Incident) {
    exists k :: SoleRetryAt(i.allowed, k) && i.allowed[k] in AllowedActions(i.blockClass, i.lane)
  }

  ghost predicate SoleRetryAt(actions: seq<RecoveryAction>, k: int) {
    0 <= k < |actions| && IsRetry(actions[k]) && forall j :: 0 <= j < |actions| && j != k ==> !IsRetry(actions[j])
  }

  /** The controller itself wrote the advice, because the Analyst failed on this very incident. */
  ghost predicate AnalystFailedOn(i: Incident, n: Advice) {
    n.evidence == i.evidence && n.brief == [] && n.refs == [] && |n.unknowns| == 1
    && n.summary == Ascii("Analyst diagnosis failed closed: ") + n.unknowns[0]
  }

  /** A held incident whose own class is analysed again. */
  ghost predicate HeldInClass(job: Job, i: Incident, n: Advice, a: Option<Attempt>) {
    || (ChecksHeld(job, i) && (i.blockClass.CiFailed? || AnalystFailedOn(i, n)))
    || (AttemptSettled(i, a) && (
          || (i.blockClass.InfrastructureExhausted? && a.value.result.None?)
          || ((i.blockClass.ValidationInfrastructure? || i.blockClass.ReviewerPreflightDirty?)
            && ReviewerUnused(job, i, a))
          || AnalystFailedOn(i, n)))
  }

  /** The class a held incident is analysed again under. */
  ghost predicate AnalysedAgainAs(job: Job, i: Incident, n: Advice, a: Option<Attempt>, c: BlockClass) {
    || (WorkerHeadMoved(job, i, a) && c.InfrastructureExhausted?)
    || (AttemptSettled(i, a) && ResidueLeft(job, i, a) && c.ReviewerPreflightDirty?)
    || (ChecksHeld(job, i) && i.blockClass.CiReworkExhausted? && i.allowed == [Hold] && c.CiFailed?)
    || (SoleRetry(i) && AttemptSettled(i, a) && ReviewStuck(job, i, a) && c.InfrastructureExhausted?)
    || (SoleRetry(i) && !ReviewStuck(job, i, a) && HeldInClass(job, i, n, a) && c == i.blockClass)
  }

  /** Only the letters A to Z change case. */
  lemma LowerIs(t: Text)
    ensures forall k :: 0 <= k < |t| ==>
      (if 'A' as int <= t[k] <= 'Z' as int then Lower(t)[k] - 'a' as int == t[k] - 'A' as int else Lower(t)[k] == t[k])
  {
  }

  lemma {:induction false} SoleRetryExactly(actions: seq<RecoveryAction>)
    ensures Retries(actions) == [] <==> forall j :: 0 <= j < |actions| ==> !IsRetry(actions[j])
    ensures |Retries(actions)| == 1 <==> exists k :: SoleRetryAt(actions, k)
    ensures forall k :: SoleRetryAt(actions, k) ==> Retries(actions) == [actions[k]]
  {
    if actions != [] {
      var rest := actions[1..];
      SoleRetryExactly(rest);
      if IsRetry(actions[0]) {
        if Retries(rest) == [] {
          forall j | 0 < j < |actions| ensures !IsRetry(actions[j]) { assert actions[j] == rest[j - 1]; }
          assert SoleRetryAt(actions, 0);
        } else {
          var j :| 0 <= j < |rest| && IsRetry(rest[j]);
          assert IsRetry(actions[j + 1]);
        }
      } else {
        forall k | SoleRetryAt(actions, k) ensures SoleRetryAt(rest, k - 1) {
          assert forall j :: 0 <= j < |rest| ==> rest[j] == actions[j + 1];
        }
        forall k | SoleRetryAt(rest, k) ensures SoleRetryAt(actions, k + 1) {
          assert forall j :: 0 < j < |actions| ==> actions[j] == rest[j - 1];
        }
      }
    }
  }

  lemma FourSlices(s: Text, head: Text, x: Text, middle: Text, y: Text)
    requires |head| == 14 && |x| == 40 && |middle| == 18 && |y| == 40
    ensures s == head + x + middle + y <==>
      |s| == 112 && s[..14] == head && s[14..54] == x && s[54..72] == middle && s[72..] == y
  {
    if |s| == 112 { assert s == s[..14] + s[14..54] + s[54..72] + s[72..]; }
  }

  lemma NamedHeadsExactly(summary: Text)
    ensures forall x, y :: NamesHeads(summary, x, y) <==> NamedHeads(summary) == Some((x, y))
  {
    var head, middle := HeadLeft(), HeadMiddle();
    assert |head| == 14 && |middle| == 18;
    forall x, y ensures NamesHeads(summary, x, y) <==> NamedHeads(summary) == Some((x, y)) {
      if |x| == 40 && |y| == 40 { FourSlices(Lower(summary), head, x, middle, y); }
      hide Lower, Ascii, IsHexUnit;
    }
  }

  lemma HeadMovedExactly(job: Job, i: Incident)
    requires job.approval.None? && job.incident == Some(i)
    ensures LegacyHeadMismatch(job) <==> WorkerHeadMoved(job, i, job.activeAttempt)
  {
    NamedHeadsExactly(i.summary);
    hide NamesHeads, Lower, NamedHeads;
    assert NamedHeads(i.summary).Some? ==>
      NamesHeads(i.summary, NamedHeads(i.summary).value.0, NamedHeads(i.summary).value.1);
  }

  lemma SituationsExactly(job: Job, i: Incident, n: Advice)
    requires job.approval.None? && n.action.Hold?
    ensures var a := job.activeAttempt;
      && (ExactAttempt(job, i) <==> AttemptSettled(i, a))
      && (HeldCi(job, i) <==> ChecksHeld(job, i))
      && (HeldReviewerBlock(job, i) <==> ReviewStuck(job, i, a))
      && (LegacyPreflight(job, i) <==> ResidueLeft(job, i, a))
      && (ControllerAnalystFailure(n) && n.evidence == i.evidence <==> AnalystFailedOn(i, n))
      && (ReviewerAtHead(job, i) && NeverStarted(job) <==> ReviewerUnused(job, i, a))
  {
    hide PreflightResidue, Ascii;
  }

  lemma SoleRetryMeans(i: Incident)
    ensures SoleRetry(i) <==> |Retries(i.allowed)| == 1 && Retries(i.allowed)[0] in AllowedActions(i.blockClass, i.lane)
    ensures SoleRetry(i) ==> !i.blockClass.IntegrityViolation? && !i.blockClass.CiReworkExhausted?
  {
    SoleRetryExactly(i.allowed);
    RetryAuthority(i.blockClass, i.lane);
    if k :| SoleRetryAt(i.allowed, k) && i.allowed[k] in AllowedActions(i.blockClass, i.lane) {
      assert Retries(i.allowed) == [i.allowed[k]];
    }
    hide Retries, AllowedActions;
  }

  /** The class that follows from which of the situations holds. */
  ghost function ClassAgain(moved: bool, residue: bool, exhausted: bool, retry: bool, stuck: bool, held: bool,
      own: BlockClass): Option<BlockClass>
  {
    if moved then Some(InfrastructureExhausted)
    else if residue then Some(ReviewerPreflightDirty)
    else if exhausted then Some(CiFailed)
    else if retry && stuck then Some(InfrastructureExhausted)
    else if retry && held then Some(own)
    else None
  }

  lemma ClassComputed(job: Job, i: Incident, n: Advice, a: Option<Attempt>)
    requires job.approval.None? && job.state.Blocked? && job.incident == Some(i) && job.analysis == Some(n)
    requires n.incidentId == i.id && n.action.Hold? && a == job.activeAttempt
    ensures ReassessmentClass(job) == ClassAgain(WorkerHeadMoved(job, i, a), AttemptSettled(i, a)
      && ResidueLeft(job, i, a),
      LegacyCiExhausted(job, i), SoleRetry(i), AttemptSettled(i, a)
        && ReviewStuck(job, i, a), HeldInClass(job, i, n, a),
      i.blockClass)
  {
    HeadMovedExactly(job, i);
    SituationsExactly(job, i, n);
    SoleRetryMeans(i);
    ClassesApart(job, i, a);
    hide LegacyHeadMismatch, WorkerHeadMoved, Retries, AllowedActions, SoleRetry, ExactAttempt, AttemptSettled, HeldCi,
        ChecksHeld, HeldReviewerBlock, ReviewStuck, LegacyPreflight, ResidueLeft, ControllerAnalystFailure,
        AnalystFailedOn, ReviewerAtHead, NeverStarted, ReviewerUnused;
    assert !ReviewStuck(job, i, a) ==>
      (HeldInClass(job, i, n, a) <==> HeldAsItIs(job, i, n) && (ExactAttempt(job, i) || HeldCi(job, i)));
    hide HeldInClass, HeldAsItIs;
  }

  /** Whether, and under which class, a held incident may be analysed again. */
  lemma ReassessedExactly(job: Job, c: BlockClass)
    requires job.approval.None?
    ensures ReassessmentClass(job) == Some(c) <==>
      && job.state.Blocked? && job.incident.Some? && job.analysis.Some?
      && job.analysis.value.incidentId == job.incident.value.id && job.analysis.value.action.Hold?
      && AnalysedAgainAs(job, job.incident.value, job.analysis.value, job.activeAttempt, c)
  {
    if job.state.Blocked? && job.incident.Some? && job.analysis.Some? && job.analysis.value.action.Hold?
        && job.analysis.value.incidentId == job.incident.value.id {
      var i, n, a := job.incident.value, job.analysis.value, job.activeAttempt;
      ClassComputed(job, i, n, a);
      SituationsExactly(job, i, n);
      SoleRetryMeans(i);
      ClassesApart(job, i, a);
      hide ReassessmentClass, WorkerHeadMoved, SoleRetry, AttemptSettled, HeldCi, ChecksHeld, ReviewStuck, ResidueLeft,
          HeldInClass, AnalystFailedOn, ReviewerUnused, ExactAttempt, HeldReviewerBlock, LegacyPreflight,
          ControllerAnalystFailure, ReviewerAtHead, NeverStarted, AllowedActions, Retries;
    }
    hide AnalysedAgainAs;
  }

  /** Which classes and Attempts the situations are about. */
  lemma ClassesApart(job: Job, i: Incident, a: Option<Attempt>)
    ensures WorkerHeadMoved(job, i, a)
      ==> i.blockClass.IntegrityViolation? && i.lane == Of(Worker) && AttemptSettled(i, a)
    ensures ResidueLeft(job, i, a) ==> i.blockClass.IntegrityViolation? && i.lane == Of(Reviewer)
    ensures ReviewStuck(job, i, a) ==> i.blockClass.ReviewUncertain? && a.Some?
    ensures ChecksHeld(job, i) ==>
      (i.blockClass.CiFailed? || i.blockClass.CiReworkExhausted?) && job.activeAttempt.None?
    ensures AttemptSettled(i, a) ==> a.Some?
  {
    hide NamesHeads, PreflightResidue;
  }

  // ----- policy recovery is at most once -----

  /** An offer is for the lane of the attempt it replaces, and inside both the incident's and the class's actions. */
  lemma OfferIsForItsLane(job: Job, advice: Option<Advice>, now: Option<Stamp>)
    requires AutomaticFor(job, advice, now).Some?
    ensures var o := AutomaticFor(job, advice, now).value;
      o.action == RetryOf(job.activeAttempt.value.lane) && o.attemptId == job.activeAttempt.value.id
      && o.action in job.incident.value.allowed
      && o.action in AllowedActions(InfrastructureExhausted, job.incident.value.lane)
  {
  }

  /** What the rest of the system provides when an offer is taken: bounded identifiers, a new id and a time. */
  predicate GoodAuthorization(job: Job, advice: Option<Advice>, now: Stamp, id: Text) {
    && job.incident.Some? && job.activeAttempt.Some? && IsTime(now)
    && IsBounded(id, 512)
    && IsBounded(job.incident.value.id, 512)
    && IsBounded(job.activeAttempt.value.id, 512)
    && (advice.Some? ==> IsBounded(advice.value.id, 512) && AdviceOk(advice.value))
    && forall i :: 0 <= i < |job.recoveries| ==> job.recoveries[i].approval.id != id
  }

  lemma LetterHasInk(t: Text)
    requires |t| > 0 && 0x60 < t[0] < 0x80
    ensures HasInk(t)
  {
    assert !IsSpace(t[0]);
  }

  lemma RuleTextBounded(r: Rule)
    ensures IsBounded(RuleText(r), 2_000) && IsBounded(AutoActor(), 512)
  {
    var t := RuleText(r);
    assert |t| <= 2_000 && t[0] > 0x60 && AutoActor()[0] == 0x68;
    assert forall i :: 0 <= i < |t| ==> t[i] >= 0x20;
    assert |AutoActor()| <= 512 && forall i :: 0 <= i < |AutoActor()| ==> AutoActor()[i] >= 0x20;
    hide RuleText;
    LetterHasInk(t);
    LetterHasInk(AutoActor());
  }

  lemma RecordIsOk(job: Job, advice: Option<Advice>, now: Stamp, id: Text)
    requires JobInvariant(job)
      && AutomaticFor(job, advice, Some(now)).Some?
      && GoodAuthorization(job, advice, now, id)
    ensures RecordOk(job.id, RecordOf(job, advice, AutomaticFor(job, advice, Some(now)).value, now, id))
  {
    RuleTextBounded(job.incident.value.candidate.value.Rule());
    OfferIsForItsLane(job, advice, Some(now));
    assert CandidateOk(job.id, job.incident.value.attemptId, job.incident.value.lane,
        job.incident.value.candidate.value);
    hide JobInvariant, IsBounded, IsSha, IsHex64, RuleText, AllowedActions;
  }

  /** The new record meets no earlier one: the offer was withheld for a used fingerprint or a used Provider scope. */
  lemma RecordIsNew(job: Job, advice: Option<Advice>, now: Stamp, id: Text, k: nat)
    requires JobInvariant(job)
      && AutomaticFor(job, advice, Some(now)).Some?
      && GoodAuthorization(job, advice, now, id)
    requires k < |job.recoveries|
    ensures !Conflict(job.recoveries[k], RecordOf(job, advice, AutomaticFor(job, advice, Some(now)).value, now, id))
  {
    hide IsBounded, IsSha, IsHex64, RuleText, AutoActor;
    var c := job.incident.value.candidate.value;
    assert !UsedFingerprint(job.recoveries, c.fingerprint);
    assert c.ProviderCandidate? ==> !UsedScope(job.recoveries, c.scope);
  }

  lemma HistoryGrows(job: Job, advice: Option<Advice>, now: Stamp, id: Text)
    requires JobInvariant(job)
      && AutomaticFor(job, advice, Some(now)).Some?
      && GoodAuthorization(job, advice, now, id)
    requires |job.recoveries| < MAX_RECOVERIES
    ensures HistoryOk(job.id, job.recoveries + [RecordOf(job, advice, AutomaticFor(job, advice, Some(now)).value,
        now, id)])
  {
    var r := RecordOf(job, advice, AutomaticFor(job, advice, Some(now)).value, now, id);
    RecordIsOk(job, advice, now, id);
    assert HistoryOk(job.id, job.recoveries);
    forall k | 0 <= k < |job.recoveries| ensures !Conflict(job.recoveries[k], r) {
      RecordIsNew(job, advice, now, id, k);
    }
    hide JobInvariant, RecordOk, Conflict, RecordOf, AutomaticFor, GoodAuthorization;
  }

  lemma RecordedIsSound(job: Job, advice: Option<Advice>, r: AutoRecovery, now: Stamp)
    requires JobInvariant(job) && job.state.Blocked? && (advice.Some? ==> AdviceOk(advice.value))
    requires ApprovalOk(r.approval, job.recoveries + [r]) && HistoryOk(job.id, job.recoveries + [r])
    ensures JobInvariant(Evolve(job.(state := RecoveryApproved, analysis := advice, approval := Some(r.approval),
        recoveries := job.recoveries + [r]), now))
  {
    assert job.pendingHandoff.None? by { hide AttemptsOk, HistoryOk, HandoffOk; }
    hide ApprovalOk, CancellationOk, HandoffOk, HistoryOk, AttemptsOk, IncidentOk, ReassessmentsOk, HasInk, AdviceOk,
        IsFailedBucket, IsTime, IsCiClass;
  }

  lemma RoomKeepsInvariant(job: Job, advice: Option<Advice>, now: Stamp, id: Text)
    requires JobInvariant(job)
      && AutomaticFor(job, advice, Some(now)).Some?
      && GoodAuthorization(job, advice, now, id)
    requires |job.recoveries| < MAX_RECOVERIES
    ensures JobInvariant(Authorize(job, advice, AutomaticFor(job, advice, Some(now)).value, now, id))
  {
    var o := AutomaticFor(job, advice, Some(now)).value;
    var r := RecordOf(job, advice, o, now, id);
    HistoryGrows(job, advice, now, id);
    RecordIsOk(job, advice, now, id);
    assert job.state.Blocked? && (advice.Some? ==> AdviceOk(advice.value)) by { hide JobInvariant, RecordOf; }
    hide JobInvariant, AutomaticFor, RecordOf, HistoryOk, GoodAuthorization;
    assert ApprovalOk(r.approval, job.recoveries + [r]) by {
      assert Records((job.recoveries + [r])[|job.recoveries|], r.approval);
    }
    hide ApprovalOk, RecordOk;
    RecordedIsSound(job, advice, r, now);
  }

  /** Taking an offer keeps the job invariant exactly when the history has room for one more record. */
  lemma AuthorizeKeepsInvariant(job: Job, advice: Option<Advice>, now: Stamp, id: Text)
    requires JobInvariant(job)
      && AutomaticFor(job, advice, Some(now)).Some?
      && GoodAuthorization(job, advice, now, id)
    ensures var next := Authorize(job, advice, AutomaticFor(job, advice, Some(now)).value, now, id);
      next.revision == job.revision + 1 && (JobInvariant(next) <==> |job.recoveries| < MAX_RECOVERIES)
  {
    if |job.recoveries| < MAX_RECOVERIES {
      RoomKeepsInvariant(job, advice, now, id);
      hide JobInvariant, AutomaticFor, RecordOf;
    } else {
      var next := Authorize(job, advice, AutomaticFor(job, advice, Some(now)).value, now, id);
      hide RecordOk, ApprovalOk, AttemptsOk, RecordOf, AutomaticFor, IncidentOk, CancellationOk, ReassessmentsOk;
      assert |next.recoveries| > MAX_RECOVERIES;
    }
  }

  // ----- a full history -----

  const NOON := Stamp(Some(0), 0)
  const MARK: Text := [0x61]

  function Copies(u: CodeUnit, n: nat): (t: Text)
    ensures |t| == n && forall i :: 0 <= i < n ==> t[i] == u
  {
    seq(n, i => u)
  }

  /** The k-th of a series of Reviewer recoveries, each of another head and all applied. */
  function PastRecovery(k: nat): AutoRecovery {
    AutoRecovery(
      Approval(Copies(0x61, k + 1), k, MARK, Some(MARK), RetryReviewer, Some(PolicyRule), Some(ReviewerSameHead),
               Some(ReviewerHead(Copies(0x30, 40), Copies(0x61, k + 1))), AutoActor(), RuleText(ReviewerSameHead),
               NOON, Some(NOON)),
      MARK, None, None, None, None, None, None)
  }

  function PastRecoveries(n: nat): (rs: seq<AutoRecovery>)
    ensures |rs| == n && forall k :: 0 <= k < n ==> rs[k] == PastRecovery(k)
  {
    seq(n, k requires 0 <= k < n => PastRecovery(k))
  }

  /** A blocked Reviewer job after n policy recoveries, with a fresh one on offer. */
  function WornJob(n: nat): Job {
    var head, id := Copies(0x30, 40), Copies(0x62, 1);
    Job(MARK, n, Blocked, OfText(MARK), head, true, Some(head),
        Some(Attempt(MARK, Reviewer, Settled, 1, head, Some(head), None, false, None, None, None, None, [], None, 0)),
        [], 1, None, [],
        Some(MakeIncident(MARK, n, Of(Reviewer), Some(MARK), InfrastructureExhausted, MARK,
                          Some(ReviewerCandidate(ReviewerHead(head, head))), None, NOON, id)),
        None, None, PastRecoveries(n), None, [], None, None, 0, None, None, NOON)
  }

  function RetryAdvice(): Advice {
    Advice(MARK, Copies(0x62, 1), OfText(MARK), RetryReviewer, MARK, MARK, [], [], true)
  }

  lemma PastRecoveriesOk(n: nat)
    requires n <= MAX_RECOVERIES
    ensures HistoryOk(MARK, PastRecoveries(n))
  {
    RuleTextBounded(ReviewerSameHead);
    forall k | 0 <= k < n ensures RecordOk(MARK, PastRecovery(k)) {
      LetterHasInk(Copies(0x61, k + 1));
      LetterHasInk(MARK);
      hide HasInk, RuleText, AutoActor;
    }
    forall i, j | 0 <= i < j < n ensures !Conflict(PastRecovery(i), PastRecovery(j)) {
      assert |Copies(0x61, i + 1)| != |Copies(0x61, j + 1)|;
    }
    hide RecordOk, Conflict, PastRecovery;
  }

  lemma WornJobOffers(n: nat)
    ensures AutomaticFor(WornJob(n), Some(RetryAdvice()), Some(NOON)).Some?
  {
    var job := WornJob(n);
    LetterHasInk(MARK);
    forall k | 0 <= k < n
      ensures job.recoveries[k].approval.fingerprint != Some(ReviewerHead(Copies(0x30, 40), Copies(0x30, 40)))
    {
      assert Copies(0x61, k + 1)[0] != Copies(0x30, 40)[0];
    }
    assert AllowedActions(InfrastructureExhausted, Of(Reviewer))[0] == RetryReviewer;
    assert !UsedFingerprint(job.recoveries, ReviewerHead(Copies(0x30, 40), Copies(0x30, 40)));
    hide HasInk, PastRecovery, PastRecoveries, UsedFingerprint;
  }

  lemma OneAttemptOk(a: Attempt, taskDigest: Digest)
    requires a.inputs == [] && ActiveOk(a, taskDigest)
    ensures AttemptsOk([], Some(a), taskDigest)
  {
    hide ActiveOk, BindingOk;
    assert AllAttempts([], Some(a)) == [a] && [a][..0] == [];
    assert Consumed([a]) == Consumed([]) + BindingDigests([]);
  }

  lemma WornIncidentOk(n: nat)
    ensures WornJob(n).incident.Some? && IncidentOk(MARK, WornJob(n).incident.value)
    ensures WornJob(n).incident.value.blockClass.InfrastructureExhausted?
  {
    var head := Copies(0x30, 40);
    assert CandidateOk(MARK, Some(MARK), Of(Reviewer), ReviewerCandidate(ReviewerHead(head, head)));
    MadeIncidentOk(MARK, n, Of(Reviewer), Some(MARK), InfrastructureExhausted, MARK,
                   Some(ReviewerCandidate(ReviewerHead(head, head))), None, NOON, Copies(0x62, 1));
    hide IncidentOk, MakeIncident, PastRecoveries;
  }

  lemma WornJobOk(n: nat)
    requires n <= MAX_RECOVERIES
    ensures JobInvariant(WornJob(n))
  {
    PastRecoveriesOk(n);
    WornIncidentOk(n);
    var job := WornJob(n);
    assert StateOk(job) && LaneStateOk(job.state, job.activeAttempt) && CiOk(job) by {
      LetterHasInk(MARK);
      assert !HasInk([]);
      hide HasInk, PastRecoveries, MakeIncident, Copies;
    }
    OneAttemptOk(job.activeAttempt.value, job.taskDigest);
    hide StateOk, LaneStateOk, CiOk, HistoryOk, PastRecoveries, AttemptsOk, IncidentOk, MakeIncident, Copies;
  }

  /** A sound job with 32 applied recoveries is offered a 33rd, which cannot be stored; with fewer it can. */
  lemma FullHistoryRefuses(n: nat, id: Text)
    requires n <= MAX_RECOVERIES && IsBounded(id, 512) && forall k ::
      0 <= k < n ==> PastRecoveries(n)[k].approval.id != id
    ensures JobInvariant(WornJob(n)) && AutomaticFor(WornJob(n), Some(RetryAdvice()), Some(NOON)).Some?
    ensures var o := AutomaticFor(WornJob(n), Some(RetryAdvice()), Some(NOON)).value;
      JobInvariant(Authorize(WornJob(n), Some(RetryAdvice()), o, NOON, id)) <==> n < MAX_RECOVERIES
  {
    WornJobOk(n);
    WornJobOffers(n);
    LetterHasInk(MARK);
    LetterHasInk(Copies(0x62, 1));
    assert GoodAuthorization(WornJob(n), Some(RetryAdvice()), NOON, id) by { hide HasInk, JobInvariant, AutomaticFor; }
    hide JobInvariant, AutomaticFor, GoodAuthorization, Authorize;
    AuthorizeKeepsInvariant(WornJob(n), Some(RetryAdvice()), NOON, id);
  }

  /** The approval written with the record is recognised as policy's own. */
  lemma AuthorizedIsRecognised(job: Job, advice: Option<Advice>, now: Stamp, id: Text)
    requires AutomaticFor(job, advice, Some(now)).Some?
    ensures var next := Authorize(job, advice, AutomaticFor(job, advice, Some(now)).value, now, id);
      next.approval.Some? && IsAutomaticApproval(next, next.approval.value)
  {
    var o := AutomaticFor(job, advice, Some(now)).value;
    var next := Authorize(job, advice, o, now, id);
    assert MatchesApproval(next, o.candidate, next.approval.value, next.recoveries[|job.recoveries|]);
  }

  /** The same record, whether or not its recovery was applied meanwhile: applying it only writes `consumedAt`. */
  predicate SameRecord(a: AutoRecovery, b: AutoRecovery) {
    b == a.(approval := a.approval.(consumedAt := b.approval.consumedAt))
  }

  /** The later history holds the earlier one's records, in their places, some of them consumed meanwhile. */
  ghost predicate Continues(before: seq<AutoRecovery>, after: seq<AutoRecovery>) {
    |before| <= |after| && forall i :: 0 <= i < |before| ==> SameRecord(before[i], after[i])
  }

  lemma ContinuesTwice(xs: seq<AutoRecovery>, ys: seq<AutoRecovery>, zs: seq<AutoRecovery>)
    requires Continues(xs, ys) && Continues(ys, zs)
    ensures Continues(xs, zs)
  {
    forall i | 0 <= i < |xs| ensures SameRecord(xs[i], zs[i]) {
      assert SameRecord(xs[i], ys[i]) && SameRecord(ys[i], zs[i]);
    }
  }

  /** No later job whose history continues the record's is offered its fingerprint, or its Provider scope, again. */
  lemma NeverOfferedAgain(job: Job, advice: Option<Advice>, now: Stamp, id: Text, later: Job,
      advice2: Option<Advice>, now2: Option<Stamp>)
    requires AutomaticFor(job, advice, Some(now)).Some? && AutomaticFor(later, advice2, now2).Some?
    requires Continues(Authorize(job, advice, AutomaticFor(job, advice, Some(now)).value, now, id).recoveries,
      later.recoveries)
    ensures var c, d := AutomaticFor(job, advice, Some(now)).value.candidate,
        AutomaticFor(later, advice2, now2).value.candidate;
      c.fingerprint != d.fingerprint && (c.ProviderCandidate? && d.ProviderCandidate? ==> c.scope != d.scope)
  {
    var o := AutomaticFor(job, advice, Some(now)).value;
    var r := RecordOf(job, advice, o, now, id);
    var d := later.incident.value.candidate.value;
    assert SameRecord(r, later.recoveries[|job.recoveries|]);
    assert !UsedFingerprint(later.recoveries, d.fingerprint);
    assert d.ProviderCandidate? ==> !UsedScope(later.recoveries, d.scope);
    hide Offers, IsBounded, RuleText;
  }

  /** One move of a job's ledger as far as policy recovery goes: an offer taken, or any other change, which leaves the
    * records in place or marks some of them consumed. */
  datatype Move = Take(advice: Option<Advice>, now: Stamp, id: Text) | Other

  ghost predicate Moves(job: Job, next: Job, m: Move) {
    match m
    case Take(advice, now, id) =>
      AutomaticFor(job, advice, Some(now)).Some?
      && next == Authorize(job, advice, AutomaticFor(job, advice, Some(now)).value, now, id)
    case Other => Continues(job.recoveries, next.recoveries)
  }

  ghost predicate LedgerRun(jobs: seq<Job>, moves: seq<Move>) {
    |jobs| == |moves| + 1 && forall i :: 0 <= i < |moves| ==> Moves(jobs[i], jobs[i + 1], moves[i])
  }

  lemma {:induction false} HistoriesContinue(jobs: seq<Job>, moves: seq<Move>, m: nat, n: nat)
    requires LedgerRun(jobs, moves) && m <= n < |jobs|
    ensures Continues(jobs[m].recoveries, jobs[n].recoveries)
    decreases n
  {
    if m < n {
      HistoriesContinue(jobs, moves, m, n - 1);
      assert Moves(jobs[n - 1], jobs[n], moves[n - 1]);
      assert Continues(jobs[n - 1].recoveries, jobs[n].recoveries);
      ContinuesTwice(jobs[m].recoveries, jobs[n - 1].recoveries, jobs[n].recoveries);
    }
  }

  /** Over any run of a job's ledger, recoveries applied or not, no two policy recoveries share a fingerprint,
    * and no two Provider ones a scope. */
  lemma RecoveredAtMostOnce(jobs: seq<Job>, moves: seq<Move>, m: nat, n: nat)
    requires LedgerRun(jobs, moves) && m < n < |moves| && moves[m].Take? && moves[n].Take?
    ensures var x := AutomaticFor(jobs[m], moves[m].advice, Some(moves[m].now));
      var y := AutomaticFor(jobs[n], moves[n].advice, Some(moves[n].now));
      x.Some? && y.Some? &&
      var c, d := x.value.candidate, y.value.candidate;
      c.fingerprint != d.fingerprint && (c.ProviderCandidate? && d.ProviderCandidate? ==> c.scope != d.scope)
  {
    HistoriesContinue(jobs, moves, m + 1, n);
    assert Moves(jobs[m], jobs[m + 1], moves[m]) && Moves(jobs[n], jobs[n + 1], moves[n]);
    NeverOfferedAgain(jobs[m], moves[m].advice, moves[m].now, moves[m].id, jobs[n], moves[n].advice,
        Some(moves[n].now));
  }

  /** A job waiting out its backoff is offered nothing before `notBefore` and the recovery at every later time,
    * with or without advice. */
  lemma BackoffEnds(job: Job, advice: Option<Advice>, now: Stamp, later: Stamp)
    requires BackoffPending(job, advice, now) && IsTime(later)
    ensures var notBefore := job.incident.value.candidate.value.notBefore;
      AutomaticFor(job, advice, Some(later)).Some? <==> !Earlier(later, notBefore)
    ensures AutomaticFor(job, advice, Some(now)).None?
    ensures AutomaticFor(job, None, Some(later)) == AutomaticFor(job, advice, Some(later))
  {
  }

  // ----- from a failed attempt to the one retry policy takes -----

  /** The incident a failed attempt is blocked with carries a candidate the invariant accepts. */
  lemma CandidateIsAccepted(job: Job, a: Attempt, d: Option<Diagnostic>, observedAt: Option<Stamp>, at: Stamp,
      summary: Text, id: Text)
    requires d.Some? ==> d.value.safe
    requires AttemptProvider(a).Some? ==> IsBounded(AttemptProvider(a).value, 512)
    ensures IncidentOk(job.id, MakeIncident(job.id, job.revision + 1, Of(a.lane), Some(a.id), InfrastructureExhausted,
                                            summary, CandidateFor(job, a, d, observedAt), d, at, id))
  {
    var c := CandidateFor(job, a, d, observedAt);
    assert c.Some? ==> CandidateOk(job.id, Some(a.id), Of(a.lane), c.value) by { hide IsSha, IsBounded, HasInk; }
    hide *;
    MadeIncidentOk(job.id, job.revision + 1, Of(a.lane), Some(a.id), InfrastructureExhausted, summary, c, d, at, id);
  }

  predicate BlockedOn(job: Job, b: Job, a: Attempt, i: Incident) {
    b.id == job.id && b.state.Blocked? && b.approval.None? && b.incident == Some(i)
    && b.activeAttempt == Some(a.(phase := Settled, result := None))
    && b.recoveries == job.recoveries
    && b.headSha == job.headSha
  }

  // ----- what policy offers and retries, field by field -----

  /** Nothing was done yet: no tool ran, no result was written, and neither worktree nor history changed. */
  predicate Untouched(d: Option<Diagnostic>) {
    d.Some? && d.value.boundary == Some(SideEffects(false, false, false, false))
  }

  /** One of the five transient codes. */
  predicate TransientCode(c: FailureCode) {
    c in {ProviderRateLimited, ProviderNetwork, ProviderTimeout, ProviderUpstream5xx, ProviderContinuationLost}
  }

  /** The commit an Attempt works on. */
  function Head(a: Attempt): Text {
    match a.expectedHeadSha
    case Some(sha) => sha
    case None => a.baseSha
  }

  /** A Pi RPC Attempt of a named provider failed in passing, at a known time, before it touched anything. */
  ghost predicate FailedInPassing(a: Attempt, d: Option<Diagnostic>, observedAt: Option<Stamp>) {
    && (exists p :: a.snapshot == Some(Snapshot(true, Some(p))) && |p| > 0)
    && observedAt.Some? && observedAt.value.ms.Some? && IsSha(Head(a))
    && Untouched(d) && TransientCode(d.value.failureCode)
  }

  /** A Provider candidate is made exactly for such a failure, and retries its lane five seconds after it was
    * observed. */
  lemma ProviderCandidateExactly(job: Job, a: Attempt, d: Option<Diagnostic>, observedAt: Option<Stamp>)
    ensures var c := ProviderCandidateFor(job, a, d, observedAt);
      && (c.Some? <==> FailedInPassing(a, d, observedAt))
      && (c.Some? ==>
           && c.value.ProviderCandidate? && c.value.lane == a.lane && c.value.headSha == Head(a)
           && c.value.provider == a.snapshot.value.provider.value && c.value.code == d.value.failureCode
           && c.value.notBefore.ms == Some(observedAt.value.ms.value + 5_000)
           && c.value.fingerprint == ProviderAttempt(c.value.provider, c.value.code, Some(a.id), c.value.headSha)
           && c.value.scope == ProviderScope(job.id, a.lane, c.value.headSha))
  {
    hide IsSha;
    if a.snapshot.Some? && a.snapshot.value.provider.Some? {
      assert a.snapshot == Some(Snapshot(a.snapshot.value.piRpc, Some(a.snapshot.value.provider.value)));
    }
  }

  /** The candidate a failed Attempt's incident carries: none once it has a result, the Provider's if it failed
    * in passing, and otherwise, if it was never dispatched, its lane's. */
  lemma CandidateExactly(job: Job, a: Attempt, d: Option<Diagnostic>, observedAt: Option<Stamp>)
    ensures var c := CandidateFor(job, a, d, observedAt);
      if a.result.Some? then c.None?
      else if FailedInPassing(a, d, observedAt) then c.Some? && c == ProviderCandidateFor(job, a, d, observedAt)
      else match a.phase
        case Running => c.None?
        case Settled => c.None?
        case _ =>
          && (a.lane.Worker? ==> c == Some(WorkerCandidate(WorkerBase(a.baseSha, a.expectedRemoteHeadSha))))
          && (a.lane.Reviewer? ==>
               if a.expectedHeadSha.Some? && a.expectedHeadSha.value != [] && job.headSha == a.expectedHeadSha
               then c == Some(ReviewerCandidate(ReviewerHead(a.baseSha, a.expectedHeadSha.value)))
               else c.None?)
  {
    ProviderCandidateExactly(job, a, d, observedAt);
    hide ProviderCandidateFor, FailedInPassing;
  }

  /** The advice backs a retry: it is about this incident, recommends that action and says how. */
  predicate Recommends(advice: Option<Advice>, i: Incident, action: RecoveryAction) {
    match advice
    case None => false
    case Some(n) => n.incidentId == i.id && n.action == action && HasInk(n.brief)
  }

  /** What each kind of candidate needs beyond a blocked job that lost its settled Attempt to the infrastructure. */
  ghost predicate CandidateMay(job: Job, i: Incident, a: Attempt, c: Candidate, advice: Option<Advice>,
      now: Option<Stamp>) {
    match c
    case WorkerCandidate(_) =>
      a.lane.Worker? && Recommends(advice, i, RetryWorker) && advice.value.unknowns == [] && RetryWorker in i.allowed
    case ReviewerCandidate(_) =>
      && a.lane.Reviewer? && Recommends(advice, i, RetryReviewer) && RetryReviewer in i.allowed
      && exists sha :: job.headSha == Some(sha) && sha != [] && a.expectedHeadSha == Some(sha)
    case ProviderCandidate(_, scope, lane, head, provider, code, notBefore) =>
      && a.lane == lane && Head(a) == head && (exists p :: a.snapshot == Some(p) && p.provider == Some(provider))
      && now.Some? && now.value.ms.Some? && (notBefore.ms.Some? ==> now.value.ms.value >= notBefore.ms.value)
      && Untouched(i.diagnostic) && i.diagnostic.value.failureCode == code && TransientCode(code)
      && (forall k :: 0 <= k < |job.recoveries| ==> job.recoveries[k].scope != Some(scope))
      && (if lane.Worker? then RetryWorker in i.allowed else RetryReviewer in i.allowed)
  }

  /** Policy offers a recovery exactly for a blocked, unapproved job whose settled Attempt without a result was
    * lost to the infrastructure, whose incident carries a candidate of an unused fingerprint, and whose
    * candidate may be retried; and it offers to retry the Attempt's own lane. */
  lemma OfferedExactly(job: Job, advice: Option<Advice>, now: Option<Stamp>)
    ensures var o := AutomaticFor(job, advice, now);
      && (o.Some? <==>
           && job.state.Blocked? && job.approval.None? && job.incident.Some? && job.activeAttempt.Some?
           && var i, a := job.incident.value, job.activeAttempt.value;
           && i.blockClass.InfrastructureExhausted? && i.candidate.Some? && i.attemptId == Some(a.id)
           && i.lane == Of(a.lane) && a.phase.Settled? && a.result.None?
           && (forall k :: 0 <= k < |job.recoveries| ==>
                job.recoveries[k].approval.fingerprint != Some(i.candidate.value.fingerprint))
           && CandidateMay(job, i, a, i.candidate.value, advice, now))
      && (o.Some? ==>
           && o.value.candidate == job.incident.value.candidate.value
           && o.value.attemptId == job.activeAttempt.value.id
           && o.value.action == if job.activeAttempt.value.lane.Worker? then RetryWorker else RetryReviewer)
  {
    if job.incident.Some? && job.activeAttempt.Some? && job.incident.value.candidate.Some? {
      var i, a := job.incident.value, job.activeAttempt.value;
      RetryAuthority(InfrastructureExhausted, i.lane);
      MayExactly(job, i, a, i.candidate.value, advice, now);
      hide CandidateMay, AllowedActions, ProviderReady, AdviceBacks;
    }
  }

  lemma MayExactly(job: Job, i: Incident, a: Attempt, c: Candidate, advice: Option<Advice>, now: Option<Stamp>)
    ensures CandidateMay(job, i, a, c, advice, now) <==>
      && (if c.ProviderCandidate? then ProviderReady(job, i, a, c, now) else AdviceBacks(i, c, advice))
      && CandidateAction(c) in i.allowed
      && (c.ReviewerCandidate? ==>
           a.lane.Reviewer? && job.headSha.Some? && job.headSha.value != [] && a.expectedHeadSha == job.headSha)
      && (c.WorkerCandidate? ==> a.lane.Worker?)
  {
    hide HasInk;
    assert c.ProviderCandidate? ==> (UsedScope(job.recoveries, c.scope) <==>
      !(forall k :: 0 <= k < |job.recoveries| ==> job.recoveries[k].scope != Some(c.scope)));
  }

  /** A transient Provider failure before any side effect is retried by policy once its backoff is over, unless its
    * fingerprint or its scope was used before. */
  lemma ProviderFailureIsRetried(job: Job, b: Job, a: Attempt, d: Option<Diagnostic>, observedAt: Option<Stamp>,
      at: Stamp,
      summary: Text, id: Text, now: Stamp)
    requires a.result.None? && IsTime(now)
    requires BlockedOn(job, b, a, MakeIncident(job.id, job.revision + 1, Of(a.lane), Some(a.id),
                                               InfrastructureExhausted, summary,
                                               CandidateFor(job, a, d, observedAt), d, at, id))
    ensures AutomaticFor(b, None, Some(now)).Some? <==>
      && FailedInPassing(a, d, observedAt)
      && now.ms.value >= observedAt.value.ms.value + 5_000
      && !UsedFingerprint(job.recoveries,
           ProviderAttempt(a.snapshot.value.provider.value, d.value.failureCode, Some(a.id), Head(a)))
      && !UsedScope(job.recoveries, ProviderScope(job.id, a.lane, Head(a)))
  {
    RetryAuthority(InfrastructureExhausted, Of(a.lane));
    ProviderCandidateExactly(job, a, d, observedAt);
    hide IsSha, UsedFingerprint, UsedScope, ProviderCandidateFor;
  }
}
