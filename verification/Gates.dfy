// The four human gates over the ledger: each loads the stored state, checks the exact decision
// step by step, and saves the evolved job under compare-and-swap.
module Gates {
  import opened Options
  import opened Utf16
  import opened Ledger
  import opened Policy
  import opened JsonStore

  datatype Request = Request(expectedRevision: int, incidentId: Text, analysisId: Text, actor: Text, reason: Text)

  /** What the clock and the id generator answer while a gate runs: `incidentAt` and `incidentId` are drawn only by a
    * reassessment, before the other two. */
  datatype Answers = Answers(now: Stamp, id: Text, incidentAt: Stamp, incidentId: Text)

  datatype Gate = CancelGate | ApproveGate | ResolveGate | ReassessGate

  // ----- specification -----

  predicate RequestBounded(r: Request) {
    IsBounded(r.actor, 512) && IsBounded(r.reason, 2_000)
  }

  /** The checks every gate makes: this revision, this incident, this analysis, of a blocked job. */
  predicate Binds(job: Job, r: Request) {
    && job.revision == r.expectedRevision
    && job.state.Blocked?
    && job.incident.Some?
    && job.incident.value.id == r.incidentId
    && job.analysis.Some? && job.analysis.value.id == r.analysisId
  }

  predicate Eligible(g: Gate, job: Job) {
    match g
    case CancelGate => CancelAndRequeue in OperatorActions(job)
    case ApproveGate => job.analysis.Some? && ApproveRetry(job.analysis.value.action) in OperatorActions(job)
    case ResolveGate => ResolveDecision in OperatorActions(job)
    case ReassessGate => Reassess in OperatorActions(job)
  }

  predicate Accepts(g: Gate, job: Job, r: Request) {
    RequestBounded(r) && Binds(job, r) && Eligible(g, job)
  }

  function CancellationOf(job: Job, r: Request, x: Answers): Cancellation {
    Cancellation(x.id, job.revision, r.incidentId, r.analysisId, r.actor, r.reason, x.now)
  }

  function ApprovalOf(job: Job, r: Request, x: Answers, basis: Basis, action: RecoveryAction): Approval {
    Approval(x.id, job.revision, r.incidentId, Some(r.analysisId), action, Some(basis), None, None, r.actor,
        r.reason, x.now, None)
  }

  function ReassessHead(): Text {
    Ascii("Reassessment requested for ") + Ascii("held incident ")
  }

  function ReassessIncident(): Text {
    Ascii("Previous incident (untrusted):") + [10]
  }

  function ReassessHold(): Text {
    Ascii("Previous Analyst hold (untrusted): ")
  }

  function ReassessReason(): Text {
    Ascii("Operator statement (untrusted): ")
  }

  function SuccessorSummary(job: Job, r: Request): Text
    requires job.incident.Some? && job.analysis.Some?
  {
    ReassessHead() + job.incident.value.id + Ascii(".") + NEWLINE
    + ReassessIncident() + job.incident.value.summary + NEWLINE
    + ReassessHold() + job.analysis.value.summary + NEWLINE
    + ReassessReason() + r.reason
  }

  function Successor(job: Job, r: Request, x: Answers): Incident
    requires job.incident.Some? && job.analysis.Some? && ReassessmentClass(job).Some?
  {
    var i := job.incident.value;
    MakeIncident(job.id, job.revision + 1, i.lane, i.attemptId, ReassessmentClass(job).value, SuccessorSummary(job, r),
                 None, i.diagnostic, x.incidentAt, x.incidentId)
  }

  function ReassessmentOf(job: Job, r: Request, x: Answers): Reassessment {
    Reassessment(x.id, job.revision, r.incidentId, r.analysisId, x.incidentId, r.actor, r.reason, x.now)
  }

  lemma ReassessableHasClass(job: Job)
    requires Reassess in OperatorActions(job)
    ensures ReassessmentClass(job).Some?
  {
  }

  function Decided(g: Gate, job: Job, r: Request, x: Answers): Job
    requires Accepts(g, job, r)
  {
    match g
    case CancelGate => Evolve(job.(state := Cancelled, cancellation := Some(CancellationOf(job, r, x))), x.now)
    case ApproveGate =>
      Evolve(job.(state := RecoveryApproved, approval := Some(ApprovalOf(job, r, x, AnalystAdvice,
          job.analysis.value.action)),
                  lastError := None), x.now)
    case ResolveGate =>
      Evolve(job.(state := RecoveryApproved, approval := Some(ApprovalOf(job, r, x, HumanDecision, RetryWorker)),
          lastError := None), x.now)
    case ReassessGate =>
      ReassessableHasClass(job);
      var next := Successor(job, r, x);
      Evolve(job.(state := Blocked, incident := Some(next), analysis := None, approval := None,
                  reassessments := job.reassessments + [ReassessmentOf(job, r, x)],
                  lastError := Some(next.summary)), x.now)
  }

  // ----- what a gate keeps -----

  /** The identifiers involved are bounded and the times are times. */
  predicate GoodAnswers(g: Gate, r: Request, x: Answers) {
    && IsTime(x.now)
    && IsBounded(x.id, 512)
    && IsBounded(r.incidentId, 512)
    && IsBounded(r.analysisId, 512)
    && (g.ReassessGate? ==> IsBounded(x.incidentId, 512))
  }

  /** A blocked job has no pending handoff, and where its attempt may stand it may stand in every gate's new state. */
  lemma BlockedFrame(job: Job)
    requires JobInvariant(job) && job.state.Blocked?
    ensures job.pendingHandoff.None? && job.revision >= 0
  {
    hide HandoffOk, HistoryOk, AttemptsOk;
  }

  lemma SuccessorOk(job: Job, r: Request, x: Answers)
    requires JobInvariant(job)
      && job.incident.Some?
      && job.analysis.Some?
      && ReassessmentClass(job).Some?
    ensures IncidentOk(job.id, Successor(job, r, x))
      && (IsCiClass(ReassessmentClass(job).value) ==> job.ciFailure.Some?)
  {
    var i := job.incident.value;
    assert IncidentOk(job.id, i) && CiOk(job);
    hide JobInvariant, SuccessorSummary;
    assert IsCiClass(ReassessmentClass(job).value) ==> IsCiClass(i.blockClass) by { hide IncidentOk, CiOk; }
    hide ReassessmentClass, MakeIncident;
    MadeIncidentOk(job.id, job.revision + 1, i.lane, i.attemptId, ReassessmentClass(job).value,
                   SuccessorSummary(job, r), None, i.diagnostic, x.incidentAt, x.incidentId);
  }

  lemma CancelledIsSound(job: Job, c: Cancellation, now: Stamp)
    requires JobInvariant(job) && job.state.Blocked? && CancellationOk(c)
    ensures JobInvariant(Evolve(job.(state := Cancelled, cancellation := Some(c)), now))
  {
    BlockedFrame(job);
    hide ApprovalOk, CancellationOk, HandoffOk, HistoryOk, AttemptsOk, IncidentOk, ReassessmentOk, HasInk, CiOk,
        AdviceOk;
  }

  lemma CancelKeepsInvariant(job: Job, r: Request, x: Answers)
    requires JobInvariant(job) && Accepts(CancelGate, job, r) && GoodAnswers(CancelGate, r, x)
    ensures JobInvariant(Decided(CancelGate, job, r, x))
  {
    assert job.revision >= 0;
    hide IsBounded, OperatorActions, JobInvariant;
    assert CancellationOk(CancellationOf(job, r, x));
    CancelledIsSound(job, CancellationOf(job, r, x), x.now);
  }

  lemma ApprovedIsSound(job: Job, a: Approval, now: Stamp)
    requires JobInvariant(job) && job.state.Blocked? && ApprovalOk(a, job.recoveries)
    ensures JobInvariant(Evolve(job.(state := RecoveryApproved, approval := Some(a), lastError := None), now))
  {
    BlockedFrame(job);
    hide ApprovalOk, CancellationOk, HandoffOk, HistoryOk, AttemptsOk, IncidentOk, ReassessmentOk, HasInk, CiOk,
        AdviceOk;
  }

  lemma ApprovalIsOk(g: Gate, job: Job, r: Request, x: Answers)
    requires g.ApproveGate? || g.ResolveGate?
    requires Accepts(g, job, r) && GoodAnswers(g, r, x)
    ensures job.state.Blocked? && Decided(g, job, r, x).approval.Some?
    ensures ApprovalOk(Decided(g, job, r, x).approval.value, job.recoveries)
  {
    assert g.ApproveGate? ==> IsRetry(job.analysis.value.action);
    hide IsBounded, OperatorActions, HasRecord;
  }

  lemma ApprovalKeepsInvariant(g: Gate, job: Job, r: Request, x: Answers)
    requires g.ApproveGate? || g.ResolveGate?
    requires JobInvariant(job) && Accepts(g, job, r) && GoodAnswers(g, r, x)
    ensures JobInvariant(Decided(g, job, r, x))
  {
    ApprovalIsOk(g, job, r, x);
    var a := Decided(g, job, r, x).approval.value;
    hide JobInvariant, ApprovalOk, Accepts, GoodAnswers, Binds;
    assert Decided(g, job, r, x)
      == Evolve(job.(state := RecoveryApproved, approval := Some(a), lastError := None), x.now);
    ApprovedIsSound(job, a, x.now);
  }

  lemma ReassessedIsSound(job: Job, next: Incident, rs: seq<Reassessment>, now: Stamp)
    requires JobInvariant(job) && job.state.Blocked? && IncidentOk(job.id, next) && ReassessmentsOk(rs)
    requires IsCiClass(next.blockClass) ==> job.ciFailure.Some?
    ensures JobInvariant(Evolve(job.(state := Blocked, incident := Some(next), analysis := None, approval := None,
        reassessments := rs, lastError := Some(next.summary)), now))
  {
    BlockedFrame(job);
    hide ApprovalOk, CancellationOk, HandoffOk, HistoryOk, AttemptsOk, IncidentOk, ReassessmentsOk, HasInk, AdviceOk,
        IsFailedBucket, IsTime;
  }

  lemma ReassessmentIsOk(job: Job, r: Request, x: Answers)
    requires JobInvariant(job) && Accepts(ReassessGate, job, r) && GoodAnswers(ReassessGate, r, x)
    ensures job.state.Blocked? && ReassessmentsOk(job.reassessments + [ReassessmentOf(job, r, x)])
  {
    assert ReassessmentsOk(job.reassessments) && job.revision >= 0;
    hide JobInvariant, IsBounded, OperatorActions;
    assert ReassessmentOk(ReassessmentOf(job, r, x));
    hide ReassessmentOk;
  }

  lemma ReassessKeepsInvariant(job: Job, r: Request, x: Answers)
    requires JobInvariant(job) && Accepts(ReassessGate, job, r) && GoodAnswers(ReassessGate, r, x)
    ensures JobInvariant(Decided(ReassessGate, job, r, x))
  {
    ReassessableHasClass(job);
    SuccessorOk(job, r, x);
    ReassessmentIsOk(job, r, x);
    var next, rs := Successor(job, r, x), job.reassessments + [ReassessmentOf(job, r, x)];
    assert next.blockClass == ReassessmentClass(job).value;
    hide JobInvariant, Accepts, GoodAnswers, Successor, ReassessmentOf, ReassessmentClass, IncidentOk, ReassessmentsOk;
    assert Decided(ReassessGate, job, r, x)
      == Evolve(job.(state := Blocked, incident := Some(next), analysis := None, approval := None, reassessments := rs,
                     lastError := Some(next.summary)), x.now);
    ReassessedIsSound(job, next, rs, x.now);
  }

  /** Every decision a gate accepts is one the ledger accepts, one revision on: with bounded identifiers and real times
    * the save cannot be refused for the job's sake. */
  lemma GateKeepsInvariant(g: Gate, job: Job, r: Request, x: Answers)
    requires JobInvariant(job) && Accepts(g, job, r) && GoodAnswers(g, r, x)
    ensures JobInvariant(Decided(g, job, r, x)) && Decided(g, job, r, x).revision == job.revision + 1
  {
    match g
    case CancelGate => CancelKeepsInvariant(job, r, x);
    case ReassessGate => ReassessKeepsInvariant(job, r, x);
    case _ => ApprovalKeepsInvariant(g, job, r, x);
    hide JobInvariant, Accepts, GoodAnswers;
  }

  /** The consumer's check before a recovery is applied. */
  predicate BindingAccepted(job: Job) {
    && job.approval.Some? && job.incident.Some?
    && var a, i := job.approval.value, job.incident.value;
    && var analysisFree := a.basis == Some(PolicyRule)
    && a.rule == Some(ProviderTransient)
    && a.analysisId.None?;
    && (job.analysis.Some? || analysisFree)
    && a.jobRevision < job.revision && a.incidentId == i.id && IsRetry(a.action)
    && (if analysisFree then job.analysis.None?
        else job.analysis.Some? && a.analysisId == Some(job.analysis.value.id)
             && (if a.basis == Some(HumanDecision) then DecisionEligible(job)
                  else a.action == job.analysis.value.action))
    && (a.basis == Some(PolicyRule) ==> IsAutomaticApproval(job, a))
    && a.action in i.allowed && a.action in AllowedActions(i.blockClass, i.lane)
  }

  /** Retry authority: the approving gates grant only what both the incident and its class allow, and their
    * approval passes the consumer's binding check; cancelling and reassessing grant none. */
  lemma GateAuthority(g: Gate, job: Job, r: Request, x: Answers)
    requires Accepts(g, job, r)
    ensures var next := Decided(g, job, r, x);
      match g
      case CancelGate => next.approval.None? && next.state.Cancelled?
      case ReassessGate =>
        next.approval.None? && next.analysis.None?
        && next.incident.value.allowed == AllowedActions(next.incident.value.blockClass, job.incident.value.lane)
      case _ =>
        BindingAccepted(next) && next.approval.value.action in job.incident.value.allowed
        && next.approval.value.action in AllowedActions(job.incident.value.blockClass, job.incident.value.lane)
  {
    hide IsBounded, ReassessmentClass, SuccessorSummary;
  }

  /** Policy's own approval passes the same check exactly when it was taken without advice or with advice for
    * the same action. */
  lemma AuthorizedBinding(job: Job, advice: Option<Advice>, now: Stamp, id: Text)
    requires AutomaticFor(job, advice, Some(now)).Some?
    ensures var o := AutomaticFor(job, advice, Some(now)).value;
      BindingAccepted(Authorize(job, advice, o, now, id)) <==> (advice.Some? ==> advice.value.action == o.action)
  {
    AuthorizedIsRecognised(job, advice, now, id);
    hide IsAutomaticApproval, DecisionEligible, RuleText, UsedFingerprint, UsedScope;
  }

  // ----- the recoveries policy authorizes -----

  datatype Authorization = Authorization(advice: Option<Advice>, offer: Offer, at: Stamp)

  function Taken(job: Job, advice: Option<Advice>, at: Stamp): Option<Authorization> {
    var o := AutomaticFor(job, advice, Some(at));
    if o.Some? then Some(Authorization(advice, o.value, at)) else None
  }

  /** `diagnoseOrWait` once nothing is left to reconcile: the recovery it authorizes, if any. `diagnosed` is
    * what asking the Analyst answers and `later` the time by which it has. */
  function Authorized(job: Job, now: Stamp, diagnosed: Advice, later: Stamp): Option<Authorization> {
    var o := AutomaticFor(job, None, Some(now));
    if o.Some? && o.value.candidate.ProviderCandidate? then Taken(job, None, now)
    else if BackoffPending(job, None, now) then None
    else if job.analysis.Some? then Taken(job, job.analysis, now)
    else if job.analystTask.None? then None
    else Taken(job, Some(diagnosed), later)
  }

  /** At a real time, a Provider recovery is authorized only without advice: it is offered then or not at all until its
    * backoff ends, and while the backoff runs nothing is authorized. */
  lemma ProviderNeedsNoAdvice(job: Job, now: Stamp, diagnosed: Advice, later: Stamp)
    requires IsTime(now) && Authorized(job, now, diagnosed, later).Some?
    ensures var a := Authorized(job, now, diagnosed, later).value;
      a.offer.candidate.ProviderCandidate? <==> a.advice.None?
  {
    hide IsHex64, UsedFingerprint, UsedScope, NoSideEffects;
  }

  /** Every recovery policy authorizes passes the check made before it is applied. */
  lemma AuthorizedIsAccepted(job: Job, now: Stamp, diagnosed: Advice, later: Stamp, id: Text)
    requires IsTime(now) && Authorized(job, now, diagnosed, later).Some?
    ensures var a := Authorized(job, now, diagnosed, later).value;
      job.incident.Some? && BindingAccepted(Authorize(job, a.advice, a.offer, a.at, id))
  {
    ProviderNeedsNoAdvice(job, now, diagnosed, later);
    var a := Authorized(job, now, diagnosed, later).value;
    assert AutomaticFor(job, a.advice, Some(a.at)) == Some(a.offer);
    hide Authorized, BindingAccepted;
    AuthorizedBinding(job, a.advice, a.at, id);
  }

  // ----- the gates themselves -----

  /** What an operator action being offered implies. */
  lemma OfferedFacts(job: Job)
    ensures OperatorActions(job) != [] ==>
      job.state.Blocked? && job.incident.Some? && job.analysis.Some?
          && job.analysis.value.incidentId == job.incident.value.id
    ensures forall a :: ApproveRetry(a) in OperatorActions(job) ==> IsRetry(a)
    ensures Reassess in OperatorActions(job) ==> ReassessmentClass(job).Some?
  {
    hide ReassessmentClass, DecisionEligible, AllowedActions;
  }

  /** A blocked job without an approval whose analysis is of its incident. */
  ghost predicate WaitsForOperator(job: Job) {
    && job.state.Blocked? && job.approval.None? && job.incident.Some? && job.analysis.Some?
    && job.analysis.value.incidentId == job.incident.value.id
  }

  /** The Reviewer asked for changes at the job's head in the last of its rounds, one of them more than minor, and the
    * Analyst holds with open questions instead of a brief. */
  ghost predicate RoundsExhausted(job: Job, i: Incident, n: Advice, a: Attempt) {
    && i.blockClass.ReviewUncertain? && i.lane == Of(Reviewer) && i.attemptId == Some(a.id) && RetryWorker in i.allowed
    && n.action.Hold? && n.brief == [] && n.unknowns != []
    && a.lane.Reviewer? && a.phase.Settled? && 1 <= job.maxReviewRounds <= a.round
    && job.headSha.Some? && a.expectedHeadSha == job.headSha && a.result.Some? && a.result.value.ReviewerResult?
    && a.result.value.status.Changes? && a.result.value.reviewedHeadSha == job.headSha
    && exists k :: 0 <= k < |a.result.value.findings|
         && (a.result.value.findings[k].severity.Critical? || a.result.value.findings[k].severity.Major?)
  }

  /** Exactly which actions a job offers its operator: the advised retry that both incident and class allow, the
    * resolution of an exhausted review, a reassessment, and the cancellation of a held job without a pull request. */
  lemma ActionsExactly(job: Job)
    ensures forall e :: ApproveRetry(e) in OperatorActions(job) <==>
      && WaitsForOperator(job) && e == job.analysis.value.action && (e.RetryWorker? || e.RetryReviewer?)
      && e in job.incident.value.allowed && e in AllowedActions(job.incident.value.blockClass, job.incident.value.lane)
    ensures ResolveDecision in OperatorActions(job) <==>
      && WaitsForOperator(job) && job.activeAttempt.Some?
      && RoundsExhausted(job, job.incident.value, job.analysis.value, job.activeAttempt.value)
    ensures Reassess in OperatorActions(job) <==>
      && WaitsForOperator(job) && job.analysis.value.action.Hold?
      && exists c :: AnalysedAgainAs(job, job.incident.value, job.analysis.value, job.activeAttempt, c)
    ensures CancelAndRequeue in OperatorActions(job) <==>
      && WaitsForOperator(job) && job.analysis.value.action.Hold? && job.claimConfirmed && job.pullRequestHead.None?
  {
    if WaitsForOperator(job) {
      DecisionExactly(job);
      ReassessmentExactly(job);
    }
    hide AnalysedAgainAs, AllowedActions, ReassessmentClass, DecisionEligible, RoundsExhausted;
  }

  lemma DecisionExactly(job: Job)
    requires job.incident.Some? && job.analysis.Some?
    ensures DecisionEligible(job) <==>
      && job.analysis.value.incidentId == job.incident.value.id && job.activeAttempt.Some?
      && RoundsExhausted(job, job.incident.value, job.analysis.value, job.activeAttempt.value)
  {
    RetryAuthority(job.incident.value.blockClass, job.incident.value.lane);
    hide AllowedActions;
  }

  lemma ReassessmentExactly(job: Job)
    requires WaitsForOperator(job)
    ensures ReassessmentClass(job).Some? <==>
      && job.analysis.value.action.Hold?
      && exists c :: AnalysedAgainAs(job, job.incident.value, job.analysis.value, job.activeAttempt, c)
  {
    hide AnalysedAgainAs;
    forall c { ReassessedExactly(job, c); }
    hide ReassessmentClass;
    assert ReassessmentClass(job).Some? ==>
      AnalysedAgainAs(job, job.incident.value, job.analysis.value, job.activeAttempt, ReassessmentClass(job).value);
  }

  /** What a gate asks of the job and of the request. */
  ghost predicate MayDecide(g: Gate, job: Job, r: Request) {
    && IsBounded(r.actor, 512) && IsBounded(r.reason, 2_000)
    && WaitsForOperator(job) && job.revision == r.expectedRevision
    && job.incident.value.id == r.incidentId && job.analysis.value.id == r.analysisId
    && var i, n := job.incident.value, job.analysis.value;
    match g
    case CancelGate => n.action.Hold? && job.claimConfirmed && job.pullRequestHead.None?
    case ApproveGate =>
      (n.action.RetryWorker? || n.action.RetryReviewer?) && n.action in i.allowed
      && n.action in AllowedActions(i.blockClass, i.lane)
    case ResolveGate => job.activeAttempt.Some? && RoundsExhausted(job, i, n, job.activeAttempt.value)
    case ReassessGate => n.action.Hold? && exists c :: AnalysedAgainAs(job, i, n, job.activeAttempt, c)
  }

  /** A gate accepts exactly the requests that name the stored revision, incident and analysis, of a job that offers its
    * operator that very action. */
  lemma AcceptsExactly(g: Gate, job: Job, r: Request)
    ensures Accepts(g, job, r) <==> MayDecide(g, job, r)
  {
    ActionsExactly(job);
    hide IsBounded, OperatorActions, AnalysedAgainAs, RoundsExhausted, AllowedActions;
  }

  /** The records a gate writes, field by field. */
  ghost predicate Recorded(g: Gate, job: Job, r: Request, x: Answers, next: Job)
    requires job.incident.Some? && job.analysis.Some?
  {
    match g
    case CancelGate =>
      && next.state.Cancelled? && next.cancellation.Some?
      && var c := next.cancellation.value;
      && c.id == x.id && c.jobRevision == job.revision && c.incidentId == r.incidentId && c.analysisId == r.analysisId
      && c.actor == r.actor && c.reason == r.reason && c.createdAt == x.now
    case ReassessGate =>
      && next.state.Blocked? && next.analysis.None? && next.approval.None? && next.incident.Some?
      && next.lastError == Some(next.incident.value.summary)
      && |next.reassessments| == |job.reassessments| + 1
        && next.reassessments[..|job.reassessments|] == job.reassessments
      && var c, i := next.reassessments[|job.reassessments|], next.incident.value;
      && c.id == x.id && c.jobRevision == job.revision && c.incidentId == r.incidentId && c.analysisId == r.analysisId
      && c.replacementId == x.incidentId && c.actor == r.actor && c.reason == r.reason && c.createdAt == x.now
      && i.id == x.incidentId && i.createdAt == x.incidentAt && i.candidate.None?
      && i.lane == job.incident.value.lane && i.attemptId == job.incident.value.attemptId
      && i.diagnostic == job.incident.value.diagnostic
      && AnalysedAgainAs(job, job.incident.value, job.analysis.value, job.activeAttempt, i.blockClass)
    case _ =>
      && next.state.RecoveryApproved? && next.lastError.None? && next.approval.Some?
      && var a := next.approval.value;
      && a.id == x.id && a.jobRevision == job.revision && a.incidentId == r.incidentId
        && a.analysisId == Some(r.analysisId)
      && a.action == (if g.ResolveGate? then RetryWorker else job.analysis.value.action)
      && a.basis == Some(if g.ResolveGate? then HumanDecision else AnalystAdvice)
      && a.rule.None? && a.fingerprint.None? && a.consumedAt.None?
      && a.actor == r.actor && a.reason == r.reason && a.createdAt == x.now
  }

  /** What a gate stores: the record of its decision, one revision on, and no field beside those the decision is
    * about. */
  lemma DecisionIsRecorded(g: Gate, job: Job, r: Request, x: Answers)
    requires Accepts(g, job, r)
    ensures var next := Decided(g, job, r, x);
      && job.incident.Some? && job.analysis.Some? && Recorded(g, job, r, x, next)
      && next.revision == job.revision + 1 && next.updatedAt == x.now
      && next == (match g
                  case CancelGate =>
                    job.(revision := next.revision, updatedAt := next.updatedAt, state := next.state,
                         cancellation := next.cancellation)
                  case ReassessGate =>
                    job.(revision := next.revision, updatedAt := next.updatedAt, incident := next.incident,
                         analysis := next.analysis, reassessments := next.reassessments, lastError := next.lastError)
                  case _ =>
                    job.(revision := next.revision, updatedAt := next.updatedAt, state := next.state,
                         approval := next.approval, lastError := next.lastError))
  {
    if g.ReassessGate? { ReassessedExactly(job, ReassessmentClass(job).value); }
    hide IsBounded, ReassessmentClass, SuccessorSummary, AnalysedAgainAs, DecisionEligible, AllowedActions;
  }

  /** The approval is one policy itself recorded, for the incident's candidate and the active Attempt. */
  ghost predicate RecordedByPolicy(job: Job, i: Incident, a: Approval) {
    && i.candidate.Some? && job.activeAttempt.Some? && a.rule == Some(i.candidate.value.Rule())
    && a.fingerprint == Some(i.candidate.value.fingerprint)
    && exists k ::
         0 <= k < |job.recoveries| && SameRecovery(job.recoveries[k], i.candidate.value, job.activeAttempt.value, a)
  }

  ghost predicate SameRecovery(r: AutoRecovery, c: Candidate, t: Attempt, a: Approval) {
    && r.approval.id == a.id && r.approval.incidentId == a.incidentId && r.approval.analysisId == a.analysisId
    && r.approval.action == a.action && r.approval.rule == a.rule && r.approval.fingerprint == a.fingerprint
    && r.attemptId == t.id
    && (c.ProviderCandidate? ==>
         && r.scope == Some(c.scope) && r.lane == Some(c.lane) && r.headSha == Some(c.headSha)
         && r.provider == Some(c.provider) && r.code == Some(c.code) && r.notBefore == Some(c.notBefore))
  }

  /** What the approval rests on still stands: an exhausted review for a human decision, the analysis it was made from
    * for advice, and for policy its own record, with that analysis or, for a Provider failure, with none. */
  ghost predicate BasisStands(job: Job, i: Incident, a: Approval) {
    if a.basis == Some(PolicyRule) && a.rule == Some(ProviderTransient) && a.analysisId.None?
    then job.analysis.None? && RecordedByPolicy(job, i, a)
    else
      && job.analysis.Some? && a.analysisId == Some(job.analysis.value.id)
      && match a.basis
         case Some(HumanDecision) =>
           && job.analysis.value.incidentId == i.id && job.activeAttempt.Some?
           && RoundsExhausted(job, i, job.analysis.value, job.activeAttempt.value)
         case Some(PolicyRule) => a.action == job.analysis.value.action && RecordedByPolicy(job, i, a)
         case _ => a.action == job.analysis.value.action
  }

  lemma RecognisedExactly(job: Job, i: Incident, a: Approval)
    requires job.incident == Some(i) && a.basis == Some(PolicyRule)
    ensures IsAutomaticApproval(job, a) <==> RecordedByPolicy(job, i, a)
  {
    if i.candidate.Some? {
      assert forall k :: 0 <= k < |job.recoveries| ==>
        (MatchesApproval(job, i.candidate.value, a, job.recoveries[k]) <==>
          job.activeAttempt.Some? && SameRecovery(job.recoveries[k], i.candidate.value, job.activeAttempt.value, a));
    }
    hide MatchesApproval, SameRecovery;
  }

  /** When an approval still binds the job it is applied to. */
  lemma BindingExactly(job: Job)
    ensures BindingAccepted(job) <==>
      && job.approval.Some? && job.incident.Some?
      && var a, i := job.approval.value, job.incident.value;
      && a.jobRevision < job.revision && a.incidentId == i.id && (a.action.RetryWorker? || a.action.RetryReviewer?)
      && a.action in i.allowed && a.action in AllowedActions(i.blockClass, i.lane) && BasisStands(job, i, a)
  {
    if job.approval.Some? && job.incident.Some? {
      var a, i := job.approval.value, job.incident.value;
      if a.basis == Some(PolicyRule) { RecognisedExactly(job, i, a); }
      if job.analysis.Some? { DecisionExactly(job); }
      hide RecordedByPolicy, IsAutomaticApproval, AllowedActions, RoundsExhausted, DecisionEligible;
    }
  }

  /** Policy waits for the backoff of a Provider failure that it will retry by itself. */
  ghost predicate WaitsOutBackoff(job: Job, now: Stamp) {
    && job.incident.Some? && job.incident.value.candidate.Some? && job.incident.value.candidate.value.ProviderCandidate?
    && var notBefore := job.incident.value.candidate.value.notBefore;
    && IsTime(now) && Earlier(now, notBefore) && AutomaticFor(job, None, Some(notBefore)).Some?
  }

  /** Which recovery is authorized while a job is blocked: a Provider retry without advice, and otherwise,
    * unless a backoff runs, the one offered for the recorded advice, or for what the Analyst answers if it has
    * not yet advised. */
  lemma AuthorizedExactly(job: Job, now: Stamp, diagnosed: Advice, later: Stamp, u: Authorization)
    ensures Authorized(job, now, diagnosed, later) == Some(u) <==>
      && AutomaticFor(job, u.advice, Some(u.at)) == Some(u.offer)
      && (if AutomaticFor(job, None, Some(now)).Some?
               && AutomaticFor(job, None, Some(now)).value.candidate.ProviderCandidate?
          then u.advice.None? && u.at == now
          else
            && !WaitsOutBackoff(job, now)
            && (if job.analysis.Some? then u.advice == job.analysis && u.at == now
                else job.analystTask.Some? && u.advice == Some(diagnosed) && u.at == later))
  {
    hide AutomaticFor;
  }

  class RecoveryGates {
    const store: JsonStateStore

    constructor (store: JsonStateStore)
      ensures this.store == store
    {
      this.store := store;
    }

    /** What a gate leaves behind, given what it found. */
    ghost predicate After(before: HarnessState, g: Gate, r: Request, x: Answers, saved: bool)
      reads store
    {
      && store.Valid()
      && saved == (before.active.Some? && Accepts(g, before.active.value, r)
           && JobInvariant(Decided(g, before.active.value, r, x)))
      && store.Contents() == if saved then before.(active := Some(Decided(g, before.active.value, r, x))) else before
    }

    method CancelHeldJob(r: Request, x: Answers) returns (saved: bool)
      requires store.Valid()
      modifies store
      ensures After(old(store.Contents()), CancelGate, r, x, saved)
    {
      hide IsBounded, OperatorActions, JobInvariant, ReassessmentClass, SuccessorSummary, AllowedActions;
      if !IsBounded(r.actor, 512) { return false; }
      if !IsBounded(r.reason, 2_000) { return false; }
      var s, ok := store.Load();
      if s.active.None? { return false; }
      var job := s.active.value;
      OfferedFacts(job);
      if job.revision != r.expectedRevision { return false; }
      if !job.state.Blocked? || job.incident.None? { return false; }
      if job.incident.value.id != r.incidentId { return false; }
      if job.analysis.None? || job.analysis.value.id != r.analysisId { return false; }
      if CancelAndRequeue !in OperatorActions(job) { return false; }
      var cancellation := Cancellation(x.id, job.revision, job.incident.value.id, job.analysis.value.id, r.actor,
          r.reason, x.now);
      saved := store.SaveState(s.(active := Some(Evolve(job.(state := Cancelled,
          cancellation := Some(cancellation)), x.now))), Some(job.revision));
    }

    method ApproveRecovery(r: Request, x: Answers) returns (saved: bool)
      requires store.Valid()
      modifies store
      ensures After(old(store.Contents()), ApproveGate, r, x, saved)
    {
      hide IsBounded, OperatorActions, JobInvariant, ReassessmentClass, SuccessorSummary, AllowedActions;
      if !IsBounded(r.actor, 512) { return false; }
      if !IsBounded(r.reason, 2_000) { return false; }
      var s, ok := store.Load();
      if s.active.None? { return false; }
      var job := s.active.value;
      OfferedFacts(job);
      if job.revision != r.expectedRevision { return false; }
      if !job.state.Blocked? || job.incident.None? { return false; }
      if job.incident.value.id != r.incidentId { return false; }
      if job.analysis.None? { return false; }
      if job.analysis.value.id != r.analysisId { return false; }
      if job.analysis.value.incidentId != job.incident.value.id { return false; }
      if !IsRetry(job.analysis.value.action) { return false; }
      if ApproveRetry(job.analysis.value.action) !in OperatorActions(job) { return false; }
      var approval := Approval(x.id, job.revision, job.incident.value.id, Some(job.analysis.value.id),
          job.analysis.value.action,
                               Some(AnalystAdvice), None, None, r.actor, r.reason, x.now, None);
      saved := store.SaveState(s.(active := Some(Evolve(job.(state := RecoveryApproved, approval := Some(approval),
          lastError := None), x.now))),
                    Some(job.revision));
    }

    method ResolveDecisionGate(r: Request, x: Answers) returns (saved: bool)
      requires store.Valid()
      modifies store
      ensures After(old(store.Contents()), ResolveGate, r, x, saved)
    {
      hide IsBounded, OperatorActions, JobInvariant, ReassessmentClass, SuccessorSummary, AllowedActions;
      if !IsBounded(r.actor, 512) { return false; }
      if !IsBounded(r.reason, 2_000) { return false; }
      var s, ok := store.Load();
      if s.active.None? { return false; }
      var job := s.active.value;
      OfferedFacts(job);
      if job.revision != r.expectedRevision { return false; }
      if !job.state.Blocked? || job.incident.None? { return false; }
      if job.incident.value.id != r.incidentId { return false; }
      if job.analysis.None? || job.analysis.value.id != r.analysisId { return false; }
      if ResolveDecision !in OperatorActions(job) { return false; }
      var approval := Approval(x.id, job.revision, job.incident.value.id, Some(job.analysis.value.id), RetryWorker,
                               Some(HumanDecision), None, None, r.actor, r.reason, x.now, None);
      saved := store.SaveState(s.(active := Some(Evolve(job.(state := RecoveryApproved, approval := Some(approval),
          lastError := None), x.now))),
                    Some(job.revision));
    }

    method ReassessIncident(r: Request, x: Answers) returns (saved: bool)
      requires store.Valid()
      modifies store
      ensures After(old(store.Contents()), ReassessGate, r, x, saved)
    {
      hide IsBounded, OperatorActions, JobInvariant, ReassessmentClass, SuccessorSummary, AllowedActions;
      if !IsBounded(r.actor, 512) { return false; }
      if !IsBounded(r.reason, 2_000) { return false; }
      var s, ok := store.Load();
      if s.active.None? { return false; }
      var job := s.active.value;
      OfferedFacts(job);
      if job.revision != r.expectedRevision { return false; }
      if !job.state.Blocked? || job.incident.None? { return false; }
      if job.incident.value.id != r.incidentId { return false; }
      if job.analysis.None? || job.analysis.value.id != r.analysisId { return false; }
      if job.analysis.value.incidentId != job.incident.value.id { return false; }
      if ReassessmentClass(job).None? || Reassess !in OperatorActions(job) { return false; }
      var i := job.incident.value;
      var next := MakeIncident(job.id, job.revision + 1, i.lane, i.attemptId, ReassessmentClass(job).value,
                               SuccessorSummary(job, r), None, i.diagnostic, x.incidentAt, x.incidentId);
      var record := Reassessment(x.id, job.revision, i.id, job.analysis.value.id, next.id, r.actor, r.reason, x.now);
      var nextJob := Evolve(job.(state := Blocked, incident := Some(next), analysis := None, approval := None,
                                 reassessments := job.reassessments + [record],
                                 lastError := Some(next.summary)), x.now);
      saved := store.SaveState(s.(active := Some(nextJob)), Some(job.revision));
    }
  }
}
