// Typed handoffs: what a finished Attempt or an approved recovery passes to the next one, and the
// bindings that must survive from the job that wrote the handoff to the Attempt that reads it.
module Handoffs {
  import opened Options
  import opened Utf16
  import opened Ledger
  import opened Policy
  import opened Gates

  const MAX_SUMMARY := 10_000

  function TruncationMarker(): (t: Text)
    ensures |t| == 37 && t[1] == 0x2E && 0 !in t
  {
    var words := Ascii("...[truncated for typed ") + Ascii("handoff]...");
    assert words[0] == 0x2E && forall i :: 0 <= i < |words| ==> words[i] >= 0x20;
    [10] + words + [10]
  }

  // ----- bounded text -----

  /** `boundHandoffText`: the first and last halves of what fits beside the marker. */
  function BoundText(value: Text, max: nat): (t: Text)
    requires max >= |TruncationMarker()| + 2
    ensures |t| <= max && (t == value <==> |value| <= max)
  {
    if |value| <= max then value
    else
      var available := max - |TruncationMarker()|;
      value[..(available + 1) / 2] + TruncationMarker() + value[|value| - available / 2..]
  }

  lemma SliceAvoids(value: Text, a: nat, b: nat)
    requires a <= b <= |value| && 0 !in value
    ensures 0 !in value[a..b]
  {
  }

  lemma InkInTheMiddle(head: Text, middle: Text, tail: Text, k: nat)
    requires k < |middle| && !IsSpace(middle[k]) && 0 !in head && 0 !in middle && 0 !in tail
    ensures HasInk(head + middle + tail) && 0 !in head + middle + tail
  {
    assert (head + middle + tail)[|head| + k] == middle[k];
    hide IsSpace;
  }

  lemma BoundTextParts(value: Text, max: nat) returns (h: nat, k: nat)
    requires max >= |TruncationMarker()| + 2 && |value| > max
    ensures h <= |value|
      && k <= |value|
      && BoundText(value, max) == value[..h] + TruncationMarker() + value[k..]
  {
    hide TruncationMarker;
    var available := max - |TruncationMarker()|;
    h, k := (available + 1) / 2, |value| - available / 2;
  }

  lemma BoundTextSame(value: Text, max: nat)
    requires max >= |TruncationMarker()| + 2 && |value| <= max
    ensures BoundText(value, max) == value
  {
  }

  /** A bounded text has ink and no NUL whenever the text itself has, so bounding it makes it acceptable. */
  lemma BoundTextIsBounded(value: Text, max: nat)
    requires max >= |TruncationMarker()| + 2 && HasInk(value) && 0 !in value
    ensures IsBounded(BoundText(value, max), max)
  {
    hide BoundText, TruncationMarker, HasInk;
    if |value| > max {
      var h, k := BoundTextParts(value, max);
      SliceAvoids(value, 0, h);
      SliceAvoids(value, k, |value|);
      assert !IsSpace(TruncationMarker()[1]);
      InkInTheMiddle(value[..h], TruncationMarker(), value[k..], 1);
    } else {
      BoundTextSame(value, max);
    }
  }

  // ----- handoffs -----

  function Identify(body: HandoffBody): Handoff {
    Handoff(IdOf(body), body)
  }

  function FindingObligations(fs: seq<Finding>): (os: seq<Obligation>)
    ensures |os| == |fs| && forall i ::
      0 <= i < |fs| ==> os[i] == Obligation(Some(fs[i].severity), fs[i].summary, Some(fs[i].evidence))
  {
    seq(|fs|, i requires 0 <= i < |fs| => Obligation(Some(fs[i].severity), fs[i].summary, Some(fs[i].evidence)))
  }

  function NullText(): Text {
    Ascii("null")
  }

  function ReviewChangesHandoff(job: Job, attempt: Attempt, result: AttemptResult, createdAt: Stamp): Handoff
    requires result.ReviewerResult?
  {
    Identify(HandoffBody(
      ReviewChanges,
      Source(job.revision, job.taskDigest, Some(attempt.id), Some(OfResult(result)), None, None, None, None,
          result.reviewedHeadSha),
      Target(Worker, GetOr(job.headSha, NullText()), None, job.pullRequestHead),
      result.summary, FindingObligations(result.findings), [], [], createdAt))
  }

  function OperatorStatement(): Text {
    Ascii("Operator statement (untrusted): ")
  }

  function Statement(reason: Text): Obligation {
    Obligation(None, BoundText(OperatorStatement() + reason, MAX_SUMMARY), None)
  }

  function CheckText(c: Check): Text {
    c.name + Ascii(": ") + GetOr(c.diagnostic, c.state)
  }

  function CheckObligation(c: Check): Obligation {
    Obligation(None, BoundText(CheckText(c), MAX_SUMMARY), if c.link == [] then None else Some(c.link))
  }

  function CheckObligations(cs: seq<Check>): (os: seq<Obligation>)
    ensures |os| == |cs| && forall i :: 0 <= i < |cs| ==> os[i] == CheckObligation(cs[i])
  {
    seq(|cs|, i requires 0 <= i < |cs| => CheckObligation(cs[i]))
  }

  /** The links of the checks that have one. */
  function Links(cs: seq<Check>): (ts: seq<Text>)
    ensures forall t :: t in ts ==> t != [] && exists i :: 0 <= i < |cs| && cs[i].link == t
  {
    if cs == [] then []
    else
      var rest := Links(cs[1..]);
      assert forall t :: t in rest ==> exists i :: 0 <= i < |cs| && cs[i].link == t by {
        forall t | t in rest ensures exists i :: 0 <= i < |cs| && cs[i].link == t {
          var i :| 0 <= i < |cs[1..]| && cs[1..][i].link == t;
          assert cs[i + 1].link == t;
        }
      }
      (if cs[0].link != [] then [cs[0].link] else []) + rest
  }

  /** `[...new Set(xs)]`: the first occurrence of each text, in order. */
  function Unique(xs: seq<Text>): (r: seq<Text>)
    ensures Distinct(r) && |r| <= |xs| && forall t :: t in r <==> t in xs
  {
    if xs == [] then []
    else
      var rest := Unique(xs[..|xs| - 1]);
      var last := xs[|xs| - 1];
      assert xs == xs[..|xs| - 1] + [last];
      if last in rest then rest else rest + [last]
  }

  /** Where a text first occurs. */
  function FirstAt(xs: seq<Text>, t: Text): (k: nat)
    requires t in xs
    ensures k < |xs| && xs[k] == t && t !in xs[..k]
  {
    if xs[0] == t then 0
    else
      var k := FirstAt(xs[1..], t);
      assert xs[..k + 1] == [xs[0]] + xs[1..][..k];
      k + 1
  }

  lemma FirstAtIs(xs: seq<Text>, t: Text, k: nat)
    requires k < |xs| && xs[k] == t && t !in xs[..k]
    ensures FirstAt(xs, t) == k
  {
  }

  /** The texts that are left stand in the order of their first occurrences. */
  lemma {:induction false} UniqueKeepsOrder(xs: seq<Text>, i: nat, j: nat)
    requires i < j < |Unique(xs)|
    ensures FirstAt(xs, Unique(xs)[i]) < FirstAt(xs, Unique(xs)[j])
  {
    var n := |xs| - 1;
    var front, last := xs[..n], xs[n];
    var rest := Unique(front);
    var a, b := Unique(xs)[i], Unique(xs)[j];
    assert a == rest[i] && a in front;
    var k := FirstAt(front, a);
    assert front[..k] == xs[..k];
    FirstAtIs(xs, a, k);
    if j < |rest| {
      UniqueKeepsOrder(front, i, j);
      assert b in front;
      assert front[..FirstAt(front, b)] == xs[..FirstAt(front, b)];
      FirstAtIs(xs, b, FirstAt(front, b));
    } else {
      FirstAtIs(xs, b, n);
    }
  }

  function CiChecks(job: Job, incident: Incident): seq<Check> {
    if incident.blockClass.CiFailed? && job.ciFailure.Some? then job.ciFailure.value.checks else []
  }

  function RecoveryObligations(job: Job, incident: Incident, analysis: Option<Advice>,
      approval: Approval): seq<Obligation> {
    (if approval.basis == Some(HumanDecision) then
       [Obligation(None, approval.reason, None)]
       + (if job.activeAttempt.Some? && job.activeAttempt.value.result.Some?
           && job.activeAttempt.value.result.value.ReviewerResult?
          then FindingObligations(job.activeAttempt.value.result.value.findings) else [])
     else if analysis.Some? && HasInk(analysis.value.brief) then [Obligation(None, analysis.value.brief, None)] else [])
    + (if approval.basis == Some(AnalystAdvice) then [Statement(approval.reason)] else [])
    + CheckObligations(CiChecks(job, incident))
  }

  function TargetLane(a: Approval): Lane {
    if a.action.RetryReviewer? then Reviewer else Worker
  }

  function RecoverySummary(analysis: Option<Advice>, approval: Approval): Text {
    if (approval.basis == Some(PolicyRule) && analysis.None?) || approval.basis == Some(HumanDecision)
        || analysis.None? then approval.reason
    else analysis.value.summary
  }

  function ApprovedRecoveryHandoff(job: Job, incident: Incident, analysis: Option<Advice>, approval: Approval,
      createdAt: Stamp): Handoff {
    var lane := TargetLane(approval);
    var attempt := job.activeAttempt;
    Identify(HandoffBody(
      if incident.blockClass.CiFailed? then CiRework else ApprovedRecovery,
      Source(job.revision, job.taskDigest, if attempt.Some? then Some(attempt.value.id) else None,
             if attempt.Some? && attempt.value.result.Some? then Some(OfResult(attempt.value.result.value)) else None,
             Some(incident.id), Some(incident.evidence), approval.analysisId, Some(approval.id), job.headSha),
      Target(lane, if lane.Worker? then GetOr(job.headSha, job.baseSha) else job.baseSha,
             if lane.Reviewer? then job.headSha else None, if lane.Worker? then job.pullRequestHead else None),
      RecoverySummary(analysis, approval),
      RecoveryObligations(job, incident, analysis, approval),
      Unique((if analysis.Some? then analysis.value.refs else []) + Links(CiChecks(job, incident))),
      if analysis.Some? then analysis.value.unknowns else [],
      createdAt))
  }

  // ----- from the pending handoff to the Attempt that carries it -----

  datatype Bound = Rejected | Unbound | BoundTo(handoff: Handoff)

  function BindPending(job: Job, a: Attempt): Bound {
    if HasInk(job.pendingBrief) then Rejected
    else if job.pendingHandoff.None? then Unbound
    else
      var b := job.pendingHandoff.value.body;
      if b.source.jobRevision + 1 != job.revision || b.source.taskDigest != job.taskDigest
         || b.target != Target(a.lane, a.baseSha, a.expectedHeadSha, a.expectedRemoteHeadSha)
      then Rejected else BoundTo(job.pendingHandoff.value)
  }

  /** The Attempt a ready job prepares next. */
  predicate PreparedFor(job: Job, a: Attempt) {
    job.state == ReadyState(a.lane) && Target(a.lane, a.baseSha, a.expectedHeadSha,
        a.expectedRemoteHeadSha) == NextTarget(job, a.lane)
  }

  /** A pending handoff of a sound job always binds to the Attempt prepared next, and a handoff bound to an Attempt
    * satisfies what the invariant later asks of that Attempt's context. */
  lemma PendingBinds(job: Job, a: Attempt)
    requires JobInvariant(job) && job.pendingHandoff.Some? && PreparedFor(job, a)
    ensures BindPending(job, a) == BoundTo(job.pendingHandoff.value)
    ensures var h := job.pendingHandoff.value;
      HandoffOk(h) && h.body.source.taskDigest == job.taskDigest
      && h.body.target == Target(a.lane, a.baseSha, a.expectedHeadSha, a.expectedRemoteHeadSha)
  {
    hide HandoffOk, AttemptsOk, HistoryOk, HasInk;
  }

  /** No pending handoff binds to an Attempt of the other lane, or at another revision. */
  lemma BindsOnlyItsTarget(job: Job, a: Attempt)
    requires BindPending(job, a).BoundTo?
    ensures job.pendingHandoff.value.body.target.lane == a.lane
      && job.pendingHandoff.value.body.source.jobRevision == job.revision - 1
  {
  }

  // ----- settling an Attempt keeps the Attempts sound -----

  function Settle(a: Attempt): Attempt {
    a.(phase := Phase.Settled)
  }

  /** When an Attempt gets the pending handoff: it was written one revision before, for this task and exactly
    * this Attempt, and no brief of the old form is left over. */
  lemma BindsExactly(job: Job, a: Attempt, h: Handoff)
    ensures BindPending(job, a) == BoundTo(h) <==>
      && job.pendingHandoff == Some(h) && !HasInk(job.pendingBrief)
      && h.body.source.jobRevision == job.revision - 1 && h.body.source.taskDigest == job.taskDigest
      && h.body.target.lane == a.lane && h.body.target.baseSha == a.baseSha
      && h.body.target.expectedHeadSha == a.expectedHeadSha
      && h.body.target.expectedRemoteHeadSha == a.expectedRemoteHeadSha
    ensures BindPending(job, a).Unbound? <==> job.pendingHandoff.None? && !HasInk(job.pendingBrief)
  {
    hide HasInk;
  }

  lemma {:induction false} FindExtends(attempts: seq<Attempt>, a: Attempt, id: Text)
    requires Find(attempts, id).Some?
    ensures Find(attempts + [a], id) == Find(attempts, id)
  {
    if attempts[0].id != id {
      assert (attempts + [a])[1..] == attempts[1..] + [a];
      FindExtends(attempts[1..], a, id);
    }
  }

  lemma InputsExtend(x: Attempt, attempts: seq<Attempt>, a: Attempt)
    requires InputsOk(x, attempts)
    ensures InputsOk(x, attempts + [a]) && InputsOk(Settle(x), attempts + [a])
  {
    forall i | 0 <= i < |x.inputs| ensures BindingOk(x.inputs[i], attempts + [a]) {
      assert BindingOk(x.inputs[i], attempts);
      FindExtends(attempts, a, x.inputs[i].sourceAttemptId);
    }
    hide BindingOk;
  }

  lemma SettledAttemptsOk(attempts: seq<Attempt>, active: Attempt, taskDigest: Digest)
    requires AttemptsOk(attempts, Some(active), taskDigest)
    ensures AttemptsOk(attempts + [Settle(active)], None, taskDigest)
  {
    var before, after := attempts + [active], attempts + [Settle(active)];
    assert AllAttempts(attempts, Some(active)) == before && AllAttempts(after, None) == after;
    assert before[..|attempts|] == attempts && after[..|attempts|] == attempts;
    assert Consumed(before) == Consumed(after);
    hide InputsOk, Consumed, Distinct;
    forall i | 0 <= i < |after| ensures InputsOk(after[i], after) {
      assert InputsOk(before[i], attempts);
      InputsExtend(before[i], attempts, Settle(active));
    }
  }

  // ----- a review that asks for changes -----

  function ChangesRequested(job: Job, h: Handoff, summary: Text, now: Stamp): Job
    requires job.activeAttempt.Some?
  {
    Evolve(job.(state := WorkerReady, activeAttempt := None,
                attempts := job.attempts + [Settle(job.activeAttempt.value)],
                pendingHandoff := Some(h), lastError := Some(summary)), now)
  }

  lemma ReadyFrame(job: Job, ready: Job, h: Handoff)
    requires JobInvariant(job) && job.activeAttempt.Some? && HandoffOk(h)
    requires ready.state.WorkerReady? || ready.state.ReviewerReady?
    requires ready == job.(state := ready.state, activeAttempt := None,
                           attempts := job.attempts + [Settle(job.activeAttempt.value)],
                           pendingHandoff := Some(h), lastError := ready.lastError,
                           revision := job.revision + 1, updatedAt := ready.updatedAt)
    ensures JobInvariant(ready) <==> PendingOk(ready)
  {
    SettledAttemptsOk(job.attempts, job.activeAttempt.value, job.taskDigest);
    hide HandoffOk, HistoryOk, AttemptsOk, PendingOk, IncidentOk, ApprovalOk, CancellationOk, ReassessmentsOk,
        AdviceOk, HasInk, Settle;
  }

  /** Routing a review's findings to a fresh Worker keeps the job invariant exactly when the handoff itself is
    * acceptable: its bindings to the next Attempt always hold. */
  lemma ReviewChangesKeepsInvariant(job: Job, result: AttemptResult, createdAt: Stamp, now: Stamp)
    requires JobInvariant(job)
      && job.state.ReviewerRunning?
      && result.ReviewerResult?
      && job.headSha.Some?
    ensures job.activeAttempt.Some?
    ensures var h := ReviewChangesHandoff(job, job.activeAttempt.value, result, createdAt);
      JobInvariant(ChangesRequested(job, h, result.summary, now)) <==> HandoffOk(h)
  {
    var h := ReviewChangesHandoff(job, job.activeAttempt.value, result, createdAt);
    var next := ChangesRequested(job, h, result.summary, now);
    if HandoffOk(h) {
      ReadyFrame(job, next, h);
      hide HandoffOk, JobInvariant;
    }
  }

  // ----- an approved recovery -----

  predicate IsCiRecovery(job: Job) {
    job.approval.Some? && job.incident.Some? && job.approval.value.action.RetryWorker?
        && job.incident.value.blockClass.CiFailed?
  }

  /** What is checked before an approved recovery is applied, as far as it is decided by the job. */
  predicate Applicable(job: Job) {
    && BindingAccepted(job)
    && (IsCiRecovery(job) ==>
         job.incident.value.attemptId.None? && job.activeAttempt.None? && job.ciReworks < MAX_CI_REWORKS)
    && (job.approval.value.action.RetryReviewer? ==>
         job.activeAttempt.Some? && job.activeAttempt.value.lane.Reviewer?
             && job.incident.value.attemptId == Some(job.activeAttempt.value.id))
  }

  function MarkConsumed(history: seq<AutoRecovery>, id: Text, now: Stamp): (r: seq<AutoRecovery>)
    ensures |r| == |history|
    ensures forall i :: 0 <= i < |r| ==>
      r[i] == if history[i].approval.id == id
          then history[i].(approval := history[i].approval.(consumedAt := Some(now))) else history[i]
  {
    seq(|history|, i requires 0 <= i < |history| =>
      if history[i].approval.id == id then history[i].(approval := history[i].approval.(consumedAt := Some(now)))
          else history[i])
  }

  function RecoveryHandoff(job: Job, now: Stamp): Handoff
    requires job.approval.Some? && job.incident.Some?
  {
    ApprovedRecoveryHandoff(job, job.incident.value, job.analysis, job.approval.value, now)
  }

  function RecoveryApplied(job: Job, now: Stamp): Job
    requires job.approval.Some? && job.incident.Some?
  {
    var a := job.approval.value;
    Evolve(job.(
      state := if a.action.RetryReviewer? then ReviewerReady else WorkerReady,
      activeAttempt := None,
      attempts := if job.activeAttempt.Some? then job.attempts + [Settle(job.activeAttempt.value)] else job.attempts,
      pendingHandoff := Some(RecoveryHandoff(job, now)),
      incident := None, analysis := None, approval := Some(a.(consumedAt := Some(now))),
      recoveries := if a.basis == Some(PolicyRule) then MarkConsumed(job.recoveries, a.id, now) else job.recoveries,
      ciReworks := if IsCiRecovery(job) then job.ciReworks + 1 else job.ciReworks,
      lastError := None), now)
  }

  // ----- what a handoff says -----

  /** The first and last halves of a text around the marker, or the whole text. */
  predicate Shortened(t: Text, value: Text) {
    if |value| <= 10_000 then t == value
    else
      |t| == 10_000 && t[..4_982] == value[..4_982] && t[4_982..5_019] == TruncationMarker()
      && t[5_019..] == value[|value| - 4_981..]
  }

  lemma ShortenedExactly(t: Text, value: Text)
    ensures Shortened(t, value) <==> t == BoundText(value, MAX_SUMMARY)
  {
    var marker := TruncationMarker();
    hide TruncationMarker;
    if |value| > 10_000 {
      var a, b := value[..4_982], value[|value| - 4_981..];
      assert BoundText(value, MAX_SUMMARY) == a + marker + b;
      if Shortened(t, value) { assert t == t[..4_982] + t[4_982..5_019] + t[5_019..]; }
    }
  }

  predicate FromFinding(o: Obligation, f: Finding) {
    o.severity == Some(f.severity) && o.summary == f.summary && o.evidence == Some(f.evidence)
  }

  predicate JustSays(o: Obligation, summary: Text) {
    o.severity.None? && o.evidence.None? && o.summary == summary
  }

  predicate FromCheck(o: Obligation, c: Check) {
    && o.severity.None?
    && Shortened(o.summary, c.name + Ascii(": ") + if c.diagnostic.Some? then c.diagnostic.value else c.state)
    && o.evidence == if |c.link| == 0 then None else Some(c.link)
  }

  /** A review's handoff: to a Worker at the job's head, with one obligation for each finding, in order. */
  lemma ReviewChangesSays(job: Job, attempt: Attempt, result: AttemptResult, createdAt: Stamp)
    requires result.ReviewerResult?
    ensures var h := ReviewChangesHandoff(job, attempt, result, createdAt);
      var b := h.body;
      && h.id == IdOf(b) && b.kind.ReviewChanges? && b.createdAt == createdAt
      && b.source.jobRevision == job.revision && b.source.taskDigest == job.taskDigest
      && b.source.attemptId == Some(attempt.id) && b.source.resultDigest == Some(OfResult(result))
      && b.source.headSha == result.reviewedHeadSha && b.source.incidentId.None? && b.source.evidence.None?
      && b.source.analysisId.None? && b.source.approvalId.None?
      && b.target.lane.Worker? && (job.headSha.Some? ==> b.target.baseSha == job.headSha.value)
      && b.target.expectedHeadSha.None? && b.target.expectedRemoteHeadSha == job.pullRequestHead
      && b.summary == result.summary && b.evidenceRefs == [] && b.unknowns == []
      && |b.obligations| == |result.findings|
      && forall k :: 0 <= k < |result.findings| ==> FromFinding(b.obligations[k], result.findings[k])
  {
  }

  predicate FindingsAt(os: seq<Obligation>, at: nat, fs: seq<Finding>) {
    at + |fs| <= |os| && forall k :: 0 <= k < |fs| ==> FromFinding(os[at + k], fs[k])
  }

  predicate ChecksAt(os: seq<Obligation>, at: nat, cs: seq<Check>) {
    at + |cs| <= |os| && forall k :: 0 <= k < |cs| ==> FromCheck(os[at + k], cs[k])
  }

  /** The findings a human decision passes on. */
  function PassedOn(job: Job, a: Approval): seq<Finding> {
    if a.basis == Some(HumanDecision) && job.activeAttempt.Some? && job.activeAttempt.value.result.Some?
        && job.activeAttempt.value.result.value.ReviewerResult?
    then job.activeAttempt.value.result.value.findings else []
  }

  /** What a recovery asks of the next Attempt, in order: the decision's reason and the review's findings, or the
    * Analyst's brief; the operator's statement, when advice was approved; and the failed checks. */
  ghost predicate Asks(os: seq<Obligation>, job: Job, i: Incident, n: Option<Advice>, a: Approval) {
    var brief := a.basis != Some(HumanDecision) && n.Some? && HasInk(n.value.brief);
    var first := if a.basis == Some(HumanDecision) || brief then 1 else 0;
    var statement := if a.basis == Some(AnalystAdvice) then 1 else 0;
    var fs := PassedOn(job, a);
    var cs := if i.blockClass.CiFailed? && job.ciFailure.Some? then job.ciFailure.value.checks else [];
    && |os| == first + |fs| + statement + |cs|
    && (a.basis == Some(HumanDecision) ==> JustSays(os[0], a.reason))
    && (brief ==> JustSays(os[0], n.value.brief))
    && FindingsAt(os, first, fs)
    && (statement == 1 ==>
         && os[first].severity.None? && os[first].evidence.None?
         && Shortened(os[first].summary, Ascii("Operator statement (untrusted): ") + a.reason))
    && ChecksAt(os, |os| - |cs|, cs)
  }

  lemma CheckAsks(c: Check)
    ensures FromCheck(CheckObligation(c), c)
  {
    ShortenedExactly(CheckObligation(c).summary, CheckText(c));
    hide Shortened, BoundText, Ascii;
  }

  lemma StatementAsks(reason: Text)
    ensures var o := Statement(reason);
      o.severity.None? && o.evidence.None?
      && Shortened(o.summary, Ascii("Operator statement (untrusted): ") + reason)
  {
    ShortenedExactly(Statement(reason).summary, OperatorStatement() + reason);
    hide Shortened, BoundText, Ascii;
  }

  /** Four lists, one after the other. */
  ghost predicate InParts(os: seq<Obligation>, a: seq<Obligation>, b: seq<Obligation>, c: seq<Obligation>,
      d: seq<Obligation>) {
    && |os| == |a| + |b| + |c| + |d|
    && (forall k :: 0 <= k < |a| ==> os[k] == a[k]) && (forall k :: 0 <= k < |b| ==> os[|a| + k] == b[k])
    && (forall k :: 0 <= k < |c| ==> os[|a| + |b| + k] == c[k])
    && (forall k :: 0 <= k < |d| ==> os[|os| - |d| + k] == d[k])
  }

  lemma Parts(a: seq<Obligation>, b: seq<Obligation>, c: seq<Obligation>, d: seq<Obligation>)
    ensures InParts(a + b + c + d, a, b, c, d)
  {
  }

  function Lead(n: Option<Advice>, a: Approval): seq<Obligation> {
    if a.basis == Some(HumanDecision) then [Obligation(None, a.reason, None)]
    else if n.Some? && HasInk(n.value.brief) then [Obligation(None, n.value.brief, None)] else []
  }

  function Statements(a: Approval): seq<Obligation> {
    if a.basis == Some(AnalystAdvice) then [Statement(a.reason)] else []
  }

  lemma RecoveryParts(job: Job, i: Incident, n: Option<Advice>, a: Approval)
    ensures InParts(RecoveryObligations(job, i, n, a), Lead(n, a), FindingObligations(PassedOn(job, a)), Statements(a),
                    CheckObligations(CiChecks(job, i)))
  {
    var lead, fs, cs := Lead(n, a), FindingObligations(PassedOn(job, a)), CheckObligations(CiChecks(job, i));
    hide Statement, HasInk, CheckObligations, CiChecks, InParts;
    assert FindingObligations([]) == [] && Lead(n, a) + [] == Lead(n, a);
    assert RecoveryObligations(job, i, n, a) == lead + fs + Statements(a) + cs;
    Parts(lead, fs, Statements(a), cs);
  }

  lemma ChecksAsked(os: seq<Obligation>, a: seq<Obligation>, b: seq<Obligation>, c: seq<Obligation>, cs: seq<Check>)
    requires InParts(os, a, b, c, CheckObligations(cs))
    ensures |cs| <= |os| && ChecksAt(os, |os| - |cs|, cs)
  {
    hide FromCheck, CheckObligation;
    forall k | 0 <= k < |cs| ensures FromCheck(os[|os| - |cs| + k], cs[k]) { CheckAsks(cs[k]); }
  }

  lemma FindingsAsked(os: seq<Obligation>, a: seq<Obligation>, fs: seq<Finding>, c: seq<Obligation>, d: seq<Obligation>)
    requires InParts(os, a, FindingObligations(fs), c, d)
    ensures FindingsAt(os, |a|, fs)
  {
  }

  lemma PartsBegin(os: seq<Obligation>, a: seq<Obligation>, b: seq<Obligation>, c: seq<Obligation>, d: seq<Obligation>)
    requires InParts(os, a, b, c, d)
    ensures |os| == |a| + |b| + |c| + |d| && (a != [] ==> os[0] == a[0]) && (c != [] ==> os[|a| + |b|] == c[0])
  {
    assert c != [] ==> os[|a| + |b| + 0] == c[0];
  }

  lemma RecoveryAsks(job: Job, i: Incident, n: Option<Advice>, a: Approval)
    ensures Asks(RecoveryObligations(job, i, n, a), job, i, n, a)
  {
    var os, fs, cs := RecoveryObligations(job, i, n, a), PassedOn(job, a), CiChecks(job, i);
    var lead, statements, checks := Lead(n, a), Statements(a), CheckObligations(cs);
    RecoveryParts(job, i, n, a);
    ChecksAsked(os, lead, FindingObligations(fs), statements, cs);
    FindingsAsked(os, lead, fs, statements, checks);
    PartsBegin(os, lead, FindingObligations(fs), statements, checks);
    StatementAsks(a.reason);
    hide InParts, FindingsAt, ChecksAt, Shortened, BoundText, Ascii, CheckObligation, Statement, HasInk,
        RecoveryObligations;
  }

  /** An approved recovery's handoff, field by field. */
  lemma RecoverySays(job: Job, i: Incident, n: Option<Advice>, a: Approval, createdAt: Stamp)
    ensures var h := ApprovedRecoveryHandoff(job, i, n, a, createdAt);
      var b, t, reviews := h.body, job.activeAttempt, a.action.RetryReviewer?;
      && h.id == IdOf(b) && b.createdAt == createdAt
      && b.kind == (if i.blockClass.CiFailed? then CiRework else ApprovedRecovery)
      && b.source.jobRevision == job.revision && b.source.taskDigest == job.taskDigest
      && b.source.incidentId == Some(i.id) && b.source.evidence == Some(i.evidence)
      && b.source.analysisId == a.analysisId && b.source.approvalId == Some(a.id) && b.source.headSha == job.headSha
      && (t.None? ==> b.source.attemptId.None? && b.source.resultDigest.None?)
      && (t.Some? ==>
           b.source.attemptId == Some(t.value.id)
           && b.source.resultDigest == if t.value.result.Some? then Some(OfResult(t.value.result.value)) else None)
      && (reviews ==>
           b.target.lane.Reviewer? && b.target.baseSha == job.baseSha && b.target.expectedHeadSha == job.headSha
           && b.target.expectedRemoteHeadSha.None?)
      && (!reviews ==>
           b.target.lane.Worker? && b.target.expectedHeadSha.None?
           && b.target.expectedRemoteHeadSha == job.pullRequestHead
           && b.target.baseSha == if job.headSha.Some? then job.headSha.value else job.baseSha)
      && (a.basis == Some(HumanDecision) || n.None? ==> b.summary == a.reason)
      && (a.basis != Some(HumanDecision) && n.Some? ==> b.summary == n.value.summary)
      && b.unknowns == (if n.Some? then n.value.unknowns else [])
      && Asks(b.obligations, job, i, n, a)
      && Distinct(b.evidenceRefs)
      && forall x :: x in b.evidenceRefs <==>
           || (n.Some? && x in n.value.refs)
           || (x != [] && i.blockClass.CiFailed? && job.ciFailure.Some?
               && exists k :: 0 <= k < |job.ciFailure.value.checks| && job.ciFailure.value.checks[k].link == x)
  {
    RecoveryAsks(job, i, n, a);
    LinksExactly(CiChecks(job, i));
    hide Asks, RecoveryObligations;
  }

  lemma {:induction false} LinksExactly(cs: seq<Check>)
    ensures forall x :: x in Links(cs) <==> x != [] && exists k :: 0 <= k < |cs| && cs[k].link == x
  {
    if cs != [] {
      LinksExactly(cs[1..]);
      forall k | 0 <= k < |cs| && cs[k].link != [] ensures cs[k].link in Links(cs) {
        if k > 0 { assert cs[1..][k - 1].link == cs[k].link; }
      }
    }
  }

  /** Applying an approved recovery: the Attempt is settled into the history, the approval and its own record are marked
    * consumed, a CI rework is counted, and nothing else moves but state, revision and clock. */
  lemma RecoveryAppliedSays(job: Job, now: Stamp)
    requires job.approval.Some? && job.incident.Some?
    ensures var a, next := job.approval.value, RecoveryApplied(job, now);
      && next.revision == job.revision + 1 && next.updatedAt == now
      && (if a.action.RetryReviewer? then next.state.ReviewerReady? else next.state.WorkerReady?)
      && next.activeAttempt.None? && next.incident.None? && next.analysis.None? && next.lastError.None?
      && next.approval == Some(a.(consumedAt := Some(now)))
      && next.pendingHandoff == Some(ApprovedRecoveryHandoff(job, job.incident.value, job.analysis, a, now))
      && next.ciReworks == job.ciReworks
           + (if a.action.RetryWorker? && job.incident.value.blockClass.CiFailed? then 1 else 0)
      && next.attempts == job.attempts
           + (if job.activeAttempt.Some? then [job.activeAttempt.value.(phase := Phase.Settled)] else [])
      && |next.recoveries| == |job.recoveries|
      && (forall k :: 0 <= k < |job.recoveries| ==>
           next.recoveries[k] == if a.basis == Some(PolicyRule) && job.recoveries[k].approval.id == a.id
             then job.recoveries[k].(approval := job.recoveries[k].approval.(consumedAt := Some(now)))
             else job.recoveries[k])
      && next == job.(revision := next.revision, updatedAt := next.updatedAt, state := next.state,
           activeAttempt := next.activeAttempt, incident := next.incident, analysis := next.analysis,
           lastError := next.lastError, approval := next.approval, pendingHandoff := next.pendingHandoff,
           ciReworks := next.ciReworks, attempts := next.attempts, recoveries := next.recoveries)
  {
    hide ApprovedRecoveryHandoff;
    assert job.attempts + [] == job.attempts;
  }

  lemma ConsumedHistoryOk(jobId: Text, history: seq<AutoRecovery>, a: Approval, now: Stamp)
    requires HistoryOk(jobId, history) && IsTime(now)
    ensures HistoryOk(jobId, MarkConsumed(history, a.id, now))
  {
    var r := MarkConsumed(history, a.id, now);
    forall i | 0 <= i < |r| ensures RecordOk(jobId, r[i]) { assert RecordOk(jobId, history[i]); }
    forall i, j | 0 <= i < j < |r| ensures !Conflict(r[i], r[j]) { assert !Conflict(history[i], history[j]); }
    hide RecordOk, Conflict;
  }

  lemma ConsumedIsRecorded(history: seq<AutoRecovery>, a: Approval, now: Stamp)
    requires HasRecord(a, history)
    ensures HasRecord(a.(consumedAt := Some(now)), MarkConsumed(history, a.id, now))
  {
    var i :| 0 <= i < |history| && Records(history[i], a);
    assert Records(MarkConsumed(history, a.id, now)[i], a.(consumedAt := Some(now)));
  }

  lemma RecoveryTarget(job: Job, now: Stamp)
    requires Applicable(job)
    ensures RecoveryHandoff(job, now).body.target == NextTarget(job, TargetLane(job.approval.value))
  {
    hide BindingAccepted, RecoveryObligations, Unique, Links, RecoverySummary;
  }

  lemma RecoveryAttemptsOk(job: Job, now: Stamp)
    requires JobInvariant(job) && Applicable(job)
    ensures AttemptsOk(RecoveryApplied(job, now).attempts, None, job.taskDigest)
  {
    if job.activeAttempt.Some? {
      SettledAttemptsOk(job.attempts, job.activeAttempt.value, job.taskDigest);
    } else {
      assert AllAttempts(job.attempts, job.activeAttempt) == AllAttempts(job.attempts, None);
    }
    hide JobInvariant, BindingAccepted, RecoveryHandoff, InputsOk, Consumed;
  }

  lemma RecoveryHandsOn(job: Job, now: Stamp)
    requires job.approval.Some? && job.incident.Some?
    ensures var next := RecoveryApplied(job, now);
      && next.pendingHandoff == Some(RecoveryHandoff(job, now)) && next.activeAttempt.None?
      && next.revision == job.revision + 1 && next.taskDigest == job.taskDigest && next.headSha == job.headSha
      && next.baseSha == job.baseSha && next.pullRequestHead == job.pullRequestHead
      && next.state == ReadyState(TargetLane(job.approval.value))
  {
    hide RecoveryHandoff, MarkConsumed, Settle, IsCiRecovery;
  }

  lemma RecoverySource(job: Job, now: Stamp)
    requires job.approval.Some? && job.incident.Some?
    ensures RecoveryHandoff(job, now).body.source.jobRevision == job.revision
    ensures RecoveryHandoff(job, now).body.source.taskDigest == job.taskDigest
  {
    hide RecoveryObligations, Unique, Links, RecoverySummary, CiChecks;
  }

  lemma RecoveryPendingOk(job: Job, now: Stamp)
    requires Applicable(job) && job.revision >= 0
    ensures PendingOk(RecoveryApplied(job, now)) <==> HandoffOk(RecoveryHandoff(job, now))
  {
    RecoveryTarget(job, now);
    RecoverySource(job, now);
    RecoveryHandsOn(job, now);
    hide HandoffOk, Applicable, RecoveryHandoff, RecoveryApplied, TargetLane, ReadyState;
    var next, lane := RecoveryApplied(job, now), TargetLane(job.approval.value);
    assert NextTarget(next, lane) == NextTarget(job, lane) && NextTarget(job, lane).lane == lane;
    hide NextTarget;
  }

  lemma RecoveryRecordsOk(job: Job, now: Stamp)
    requires JobInvariant(job) && Applicable(job) && IsTime(now)
    ensures var next := RecoveryApplied(job, now);
      HistoryOk(job.id, next.recoveries) && ApprovalOk(next.approval.value, next.recoveries)
  {
    ConsumedHistoryOk(job.id, job.recoveries, job.approval.value, now);
    if HasRecord(job.approval.value, job.recoveries) { ConsumedIsRecorded(job.recoveries, job.approval.value, now); }
    assert ApprovalOk(job.approval.value, job.recoveries);
    hide HistoryOk, HasRecord, Applicable, RecoveryHandoff, MarkConsumed, IsBounded, JobInvariant;
  }

  lemma RecoveryKeepsFields(job: Job, now: Stamp)
    requires job.approval.Some? && job.incident.Some?
    ensures var next := RecoveryApplied(job, now);
      && (next.state.WorkerReady? || next.state.ReviewerReady?) && next.incident.None? && next.analysis.None?
      && next.activeAttempt.None? && next.id == job.id && next.taskDigest == job.taskDigest
      && next.reassessments == job.reassessments && next.cancellation == job.cancellation
      && next.revision == job.revision + 1 && next.pendingBrief == job.pendingBrief
        && next.analystTask == job.analystTask
      && next.pullRequestHead == job.pullRequestHead && next.ciFailure == job.ciFailure
      && next.ciReworks == job.ciReworks + if IsCiRecovery(job) then 1 else 0
  {
    hide RecoveryHandoff, MarkConsumed, Settle, IsCiRecovery;
  }

  lemma ReadyStateOk(job: Job, next: Job)
    requires StateOk(job) && (next.state.WorkerReady? || next.state.ReviewerReady?) && next.activeAttempt.None?
    requires next.id == job.id && next.revision == job.revision + 1 && next.pendingBrief == job.pendingBrief
    requires next.analystTask == job.analystTask && next.taskDigest == job.taskDigest
    ensures StateOk(next) && LaneStateOk(next.state, next.activeAttempt)
  {
    hide HasInk;
  }

  lemma ReworkCounted(job: Job, next: Job)
    requires CiOk(job) && next.incident.None? && job.ciReworks <= next.ciReworks <= MAX_CI_REWORKS
    requires next.pullRequestHead == job.pullRequestHead && next.ciFailure == job.ciFailure
    ensures CiOk(next)
  {
    hide IsTime, IsFailedBucket;
  }

  lemma ReworkHasRoom(job: Job)
    requires CiOk(job) && Applicable(job)
    ensures job.ciReworks + (if IsCiRecovery(job) then 1 else 0) <= MAX_CI_REWORKS
  {
    hide BindingAccepted, IsCiRecovery;
  }

  lemma RecoveryStateOk(job: Job, now: Stamp)
    requires StateOk(job) && CiOk(job) && Applicable(job)
    ensures var next := RecoveryApplied(job, now);
      StateOk(next) && CiOk(next) && LaneStateOk(next.state, next.activeAttempt)
  {
    var next := RecoveryApplied(job, now);
    RecoveryKeepsFields(job, now);
    ReworkHasRoom(job);
    hide *;
    ReadyStateOk(job, next);
    ReworkCounted(job, next);
  }

  /** Applying an approved recovery keeps the job invariant exactly when the handoff it writes is acceptable:
    * consuming the approval, settling the Attempt and counting the rework never break it. */
  lemma RecoveryKeepsInvariant(job: Job, now: Stamp)
    requires JobInvariant(job) && job.state.RecoveryApproved? && Applicable(job) && IsTime(now)
    ensures JobInvariant(RecoveryApplied(job, now)) <==> HandoffOk(RecoveryHandoff(job, now))
  {
    var next := RecoveryApplied(job, now);
    RecoveryRecordsOk(job, now);
    RecoveryPendingOk(job, now);
    RecoveryAttemptsOk(job, now);
    RecoveryStateOk(job, now);
    RecoveryKeepsFields(job, now);
    hide HandoffOk, HistoryOk, AttemptsOk, IncidentOk, ApprovalOk, CancellationOk, ReassessmentsOk, AdviceOk,
        StateOk, CiOk, LaneStateOk,
         PendingOk, Applicable, RecoveryApplied;
  }

  // ----- every modelled change of a job is a move of its ledger -----

  /** Applying a recovery, a gate's decision and routing a review's findings all continue the policy history:
    * they are moves of the ledger in the sense in which recovery is at most once. */
  lemma ChangesAreMoves(job: Job, now: Stamp)
    ensures job.approval.Some? && job.incident.Some? ==> Moves(job, RecoveryApplied(job, now), Other)
    ensures forall g, r, x :: Accepts(g, job, r) ==> Moves(job, Decided(g, job, r, x), Other)
    ensures forall h, summary :: job.activeAttempt.Some? ==> Moves(job, ChangesRequested(job, h, summary, now), Other)
  {
    hide Accepts, RecoveryHandoff, Successor;
    forall i | 0 <= i < |job.recoveries| ensures SameRecord(job.recoveries[i], job.recoveries[i]) {}
  }

  /** The ordinary path, an offer taken and then applied, is a run of the ledger: whatever follows it, no later offer
    * shares the fingerprint or the Provider scope. */
  lemma AppliedRecoveryIsOnce(job: Job, advice: Option<Advice>, now: Stamp, id: Text, at: Stamp, later: seq<Job>,
      moves: seq<Move>, advice2: Option<Advice>, now2: Option<Stamp>)
    requires AutomaticFor(job, advice, Some(now)).Some?
    requires LedgerRun(later, moves)
    requires later[0] == RecoveryApplied(Authorize(job, advice, AutomaticFor(job, advice, Some(now)).value, now, id),
      at)
    requires AutomaticFor(later[|moves|], advice2, now2).Some?
    ensures var c, d := AutomaticFor(job, advice, Some(now)).value.candidate,
        AutomaticFor(later[|moves|], advice2, now2).value.candidate;
      c.fingerprint != d.fingerprint && (c.ProviderCandidate? && d.ProviderCandidate? ==> c.scope != d.scope)
  {
    var taken := Authorize(job, advice, AutomaticFor(job, advice, Some(now)).value, now, id);
    ChangesAreMoves(taken, at);
    HistoriesContinue(later, moves, 0, |moves|);
    assert Moves(taken, later[0], Other);
    ContinuesTwice(taken.recoveries, later[0].recoveries, later[|moves|].recoveries);
    hide AutomaticFor, Authorize, RecoveryApplied, Continues;
    NeverOfferedAgain(job, advice, now, id, later[|moves|], advice2, now2);
  }

  // ----- when a written handoff is acceptable -----

  predicate AllOk(os: seq<Obligation>) {
    forall k :: 0 <= k < |os| ==> ObligationOk(os[k])
  }

  lemma AllOkConcat(a: seq<Obligation>, b: seq<Obligation>)
    ensures AllOk(a + b) <==> AllOk(a) && AllOk(b)
  {
    if AllOk(a + b) {
      forall k | 0 <= k < |a| ensures ObligationOk(a[k]) { assert (a + b)[k] == a[k]; }
      forall k | 0 <= k < |b| ensures ObligationOk(b[k]) { assert (a + b)[|a| + k] == b[k]; }
    }
    hide ObligationOk;
  }

  /** What a finding needs to become an obligation. */
  predicate FindingsFit(fs: seq<Finding>) {
    forall k :: 0 <= k < |fs| ==> IsBounded(fs[k].summary, MAX_SUMMARY) && IsBounded(fs[k].evidence, MAX_SUMMARY)
  }

  lemma FindingsFitExactly(fs: seq<Finding>)
    ensures AllOk(FindingObligations(fs)) <==> FindingsFit(fs)
  {
    hide IsBounded;
    if AllOk(FindingObligations(fs)) {
      forall k | 0 <= k < |fs| ensures IsBounded(fs[k].summary, MAX_SUMMARY) && IsBounded(fs[k].evidence, MAX_SUMMARY) {
        assert ObligationOk(FindingObligations(fs)[k]);
      }
    }
  }

  /** What a failed check needs to become an obligation and a reference: no NUL in what is kept of its text, and a link
    * that is empty or acceptable. */
  predicate CheckFits(c: Check) {
    0 !in BoundText(CheckText(c), MAX_SUMMARY) && (c.link != [] ==> IsBounded(c.link, 2_000))
  }

  /** Bounding keeps the ink of a text that has some at each end or is short. */
  lemma BoundTextInk(value: Text)
    requires HasInk(value)
    ensures IsBounded(BoundText(value, MAX_SUMMARY), MAX_SUMMARY) <==> 0 !in BoundText(value, MAX_SUMMARY)
  {
    hide BoundText, TruncationMarker;
    if |value| > MAX_SUMMARY {
      var h, k := BoundTextParts(value, MAX_SUMMARY);
      var t := value[..h] + TruncationMarker() + value[k..];
      assert !IsSpace(TruncationMarker()[1]) && t[h + 1] == TruncationMarker()[1];
    } else {
      BoundTextSame(value, MAX_SUMMARY);
    }
  }

  lemma CheckFitsExactly(c: Check)
    ensures CheckFits(c) <==> ObligationOk(CheckObligation(c)) && (c.link != [] ==> IsBounded(c.link, 2_000))
  {
    var t := CheckText(c);
    assert t[|c.name|] == 0x3A && !IsSpace(t[|c.name|]);
    BoundTextInk(t);
    hide BoundText, CheckText;
    if c.link != [] && IsBounded(c.link, 2_000) { assert IsBounded(c.link, 10_000); }
  }

  lemma StatementFitsExactly(reason: Text)
    ensures ObligationOk(Statement(reason)) <==> 0 !in Statement(reason).summary
  {
    var t := OperatorStatement() + reason;
    assert t[0] == OperatorStatement()[0] && !IsSpace(t[0]);
    BoundTextInk(t);
    hide BoundText;
  }

  /** A review's findings are routed to a fresh Worker exactly when there are at most 100 of them, their texts and the
    * summary are acceptable, and so are the names the job gives to its task, its Attempt and its commits. */
  lemma ReviewChangesAcceptedExactly(job: Job, result: AttemptResult, createdAt: Stamp, now: Stamp)
    requires JobInvariant(job) && job.state.ReviewerRunning? && result.ReviewerResult? && job.headSha.Some?
    ensures job.activeAttempt.Some?
    ensures JobInvariant(ChangesRequested(job, ReviewChangesHandoff(job, job.activeAttempt.value, result, createdAt),
        result.summary, now))
      <==>
      && |result.findings| <= MAX_OBLIGATIONS && FindingsFit(result.findings) && IsBounded(result.summary, MAX_SUMMARY)
      && IsHex64(job.taskDigest) && IsBounded(job.activeAttempt.value.id, 512) && IsTime(createdAt)
      && ShaOrNull(result.reviewedHeadSha) && IsSha(job.headSha.value) && ShaOrNull(job.pullRequestHead)
  {
    ReviewChangesKeepsInvariant(job, result, createdAt, now);
    assert job.revision >= 0;
    FindingsFitExactly(result.findings);
    hide JobInvariant, ChangesRequested, IsBounded, IsHex64, IsSha, FindingObligations, FindingsFit, ObligationOk;
  }

  /** The findings a human decision hands to the Worker. */
  function ReviewFindings(job: Job): seq<Finding> {
    if job.activeAttempt.Some? && job.activeAttempt.value.result.Some?
      && job.activeAttempt.value.result.value.ReviewerResult?
    then job.activeAttempt.value.result.value.findings else []
  }

  function Brief(job: Job): Option<Text> {
    if job.analysis.Some? && HasInk(job.analysis.value.brief) then Some(job.analysis.value.brief) else None
  }

  function OwnRefs(job: Job): seq<Text> {
    if job.analysis.Some? then job.analysis.value.refs else []
  }

  function OwnUnknowns(job: Job): seq<Text> {
    if job.analysis.Some? then job.analysis.value.unknowns else []
  }

  function HandoffRefs(job: Job): seq<Text>
    requires job.incident.Some?
  {
    Unique(OwnRefs(job) + Links(CiChecks(job, job.incident.value)))
  }

  /** The names a recovery's handoff repeats: the invariant bounds none of them. */
  predicate NamesFit(job: Job)
    requires job.approval.Some? && job.incident.Some?
  {
    var a, i := job.approval.value, job.incident.value;
    && IsHex64(job.taskDigest) && (job.activeAttempt.Some? ==> IsBounded(job.activeAttempt.value.id, 512))
    && IsBounded(i.id, 512) && IsHex64(i.evidence) && IsBounded(a.id, 512) && ShaOrNull(job.headSha)
    && IsSha(if a.action.RetryReviewer? then job.baseSha else GetOr(job.headSha, job.baseSha))
    && (a.action.RetryReviewer? || ShaOrNull(job.pullRequestHead))
  }

  /** The lists a recovery's handoff copies. */
  predicate ListsFit(job: Job)
    requires job.incident.Some?
  {
    && |HandoffRefs(job)| <= 100 && AllBounded(OwnRefs(job), 2_000)
    && |OwnUnknowns(job)| <= 100 && AllBounded(OwnUnknowns(job), 2_000)
    && forall k :: 0 <= k < |CiChecks(job, job.incident.value)| ==> CheckFits(CiChecks(job, job.incident.value)[k])
  }

  /** The obligations a recovery states beside the failed checks, and how many they are. */
  predicate StatementsFit(job: Job)
    requires job.approval.Some? && job.incident.Some?
  {
    var a, checks := job.approval.value, |CiChecks(job, job.incident.value)|;
    match a.basis
    case Some(HumanDecision) => FindingsFit(ReviewFindings(job))
      && |ReviewFindings(job)| + 1 + checks <= MAX_OBLIGATIONS
    case Some(AnalystAdvice) => BoundedOrNull(Brief(job), MAX_SUMMARY) && 0 !in Statement(a.reason).summary
      && (if Brief(job).Some? then 2 else 1) + checks <= MAX_OBLIGATIONS
    case _ => BoundedOrNull(Brief(job), MAX_SUMMARY) && (if Brief(job).Some? then 1 else 0) + checks <= MAX_OBLIGATIONS
  }

  function OneObligation(t: Option<Text>): seq<Obligation> {
    if t.Some? then [Obligation(None, t.value, None)] else []
  }

  function OwnObligations(job: Job): seq<Obligation>
    requires job.approval.Some?
  {
    var a := job.approval.value;
    match a.basis
    case Some(HumanDecision) => [Obligation(None, a.reason, None)] + FindingObligations(ReviewFindings(job))
    case Some(AnalystAdvice) => OneObligation(Brief(job)) + [Statement(a.reason)]
    case _ => OneObligation(Brief(job))
  }

  lemma ObligationsSplit(job: Job)
    requires job.approval.Some? && job.incident.Some?
    ensures RecoveryObligations(job, job.incident.value, job.analysis, job.approval.value)
      == OwnObligations(job) + CheckObligations(CiChecks(job, job.incident.value))
  {
    hide BoundText, HasInk, FindingObligations, CheckObligations, CiChecks, OperatorStatement;
  }

  /** What the approval of a sound job already has. */
  predicate ApprovalBounded(a: Approval) {
    BoundedOrNull(a.analysisId, 512) && (a.basis == Some(HumanDecision) ==> IsBounded(a.reason, 2_000))
  }

  lemma OwnObligationsExactly(job: Job)
    requires job.approval.Some? && job.incident.Some? && ApprovalBounded(job.approval.value)
    ensures var n := |CiChecks(job, job.incident.value)|;
      AllOk(OwnObligations(job)) && |OwnObligations(job)| + n <= MAX_OBLIGATIONS <==> StatementsFit(job)
  {
    var a := job.approval.value;
    FindingsFitExactly(ReviewFindings(job));
    StatementFitsExactly(a.reason);
    AllOkConcat([Obligation(None, a.reason, None)], FindingObligations(ReviewFindings(job)));
    AllOkConcat(OneObligation(Brief(job)), [Statement(a.reason)]);
    hide ReviewFindings, Brief, FindingObligations, Statement, CiChecks, FindingsFit;
    if a.basis == Some(HumanDecision) { assert IsBounded(a.reason, 10_000); }
    hide IsBounded;
    assert AllOk([Statement(a.reason)]) <==> ObligationOk([Statement(a.reason)][0]);
    assert AllOk([Obligation(None, a.reason, None)]) <==> ObligationOk([Obligation(None, a.reason, None)][0]);
    if Brief(job).Some? { assert AllOk(OneObligation(Brief(job))) <==> ObligationOk(OneObligation(Brief(job))[0]); }
  }

  lemma CheckListExactly(cs: seq<Check>)
    ensures (forall k :: 0 <= k < |cs| ==> CheckFits(cs[k]))
      <==> AllOk(CheckObligations(cs)) && forall k :: 0 <= k < |cs| && cs[k].link != [] ==> IsBounded(cs[k].link, 2_000)
  {
    forall k | 0 <= k < |cs|
      ensures CheckFits(cs[k]) <==>
        ObligationOk(CheckObligations(cs)[k]) && (cs[k].link != [] ==> IsBounded(cs[k].link, 2_000))
    {
      CheckFitsExactly(cs[k]);
    }
    hide CheckFits, ObligationOk, IsBounded;
  }

  lemma {:induction false} LinksKept(cs: seq<Check>, k: nat)
    requires k < |cs| && cs[k].link != []
    ensures cs[k].link in Links(cs)
  {
    if k > 0 { LinksKept(cs[1..], k - 1); }
  }

  lemma RefsExactly(refs: seq<Text>, cs: seq<Check>)
    ensures AllBounded(Unique(refs + Links(cs)), 2_000)
      <==> AllBounded(refs, 2_000) && forall k :: 0 <= k < |cs| && cs[k].link != [] ==> IsBounded(cs[k].link, 2_000)
  {
    var all := Unique(refs + Links(cs));
    hide IsBounded;
    if AllBounded(all, 2_000) {
      forall k | 0 <= k < |refs| ensures IsBounded(refs[k], 2_000) { assert refs[k] in all; }
      forall k | 0 <= k < |cs| && cs[k].link != [] ensures IsBounded(cs[k].link, 2_000) {
        LinksKept(cs, k);
        assert cs[k].link in all;
      }
    }
    if AllBounded(refs, 2_000) && forall k :: 0 <= k < |cs| && cs[k].link != [] ==> IsBounded(cs[k].link, 2_000) {
      forall j | 0 <= j < |all| ensures IsBounded(all[j], 2_000) {
        assert all[j] in refs + Links(cs);
        if all[j] !in refs { assert all[j] in Links(cs); }
      }
    }
  }

  lemma NamesExactly(job: Job, now: Stamp)
    requires job.approval.Some? && job.incident.Some? && job.revision >= 0
    requires BoundedOrNull(job.approval.value.analysisId, 512)
    ensures var body := RecoveryHandoff(job, now).body;
      SourceOk(body.source) && TargetOk(body.target) <==> NamesFit(job)
  {
    assert forall r :: IsHex64(OfResult(r));
    hide IsBounded, IsHex64, IsSha, RecoverySummary, RecoveryObligations, Unique, Links, CiChecks;
  }

  lemma PartsExactly(job: Job, now: Stamp)
    requires job.approval.Some? && job.incident.Some? && job.revision >= 0 && IsTime(now)
    requires BoundedOrNull(job.approval.value.analysisId, 512)
    ensures var os := RecoveryObligations(job, job.incident.value, job.analysis, job.approval.value);
      HandoffOk(RecoveryHandoff(job, now)) <==>
        && NamesFit(job) && IsBounded(RecoverySummary(job.analysis, job.approval.value), MAX_SUMMARY)
        && |os| <= MAX_OBLIGATIONS && AllOk(os)
        && |HandoffRefs(job)| <= 100 && AllBounded(HandoffRefs(job), 2_000)
        && |OwnUnknowns(job)| <= 100 && AllBounded(OwnUnknowns(job), 2_000)
  {
    NamesExactly(job, now);
    hide NamesFit, SourceOk, TargetOk;
    hide IsBounded, AllBounded, ObligationOk, RecoverySummary, RecoveryObligations, Unique, Links, CiChecks;
    var body := RecoveryHandoff(job, now).body;
    assert body.evidenceRefs == HandoffRefs(job) && body.unknowns == OwnUnknowns(job);
  }

  /** The handoff an approved recovery writes is accepted exactly when the job's own names, lists and texts fit,
    * whichever basis the approval has. */
  lemma RecoveryAcceptedExactly(job: Job, now: Stamp)
    requires job.approval.Some? && job.incident.Some? && job.revision >= 0 && IsTime(now)
    requires ApprovalBounded(job.approval.value)
    ensures HandoffOk(RecoveryHandoff(job, now)) <==>
      && NamesFit(job) && ListsFit(job) && StatementsFit(job)
      && IsBounded(RecoverySummary(job.analysis, job.approval.value), MAX_SUMMARY)
  {
    var cs := CiChecks(job, job.incident.value);
    ObligationsSplit(job);
    OwnObligationsExactly(job);
    AllOkConcat(OwnObligations(job), CheckObligations(cs));
    CheckListExactly(cs);
    RefsExactly(OwnRefs(job), cs);
    PartsExactly(job, now);
    assert |CheckObligations(cs)| == |cs|;
    hide HandoffOk, RecoveryHandoff, RecoveryObligations, NamesFit, StatementsFit, IsBounded, AllBounded, AllOk,
      CheckFits,
        OwnObligations, CiChecks, Links, Unique, OwnRefs, OwnUnknowns, CheckObligations;
  }

  lemma SoundApprovalBounded(job: Job)
    requires JobInvariant(job) && job.approval.Some?
    ensures ApprovalBounded(job.approval.value) && job.revision >= 0
  {
    assert ApprovalOk(job.approval.value, job.recoveries) && StateOk(job);
    hide JobInvariant, HasRecord, IsBounded;
  }

  /** What the Analyst's lists need to be copied. */
  predicate AdviceFits(n: Advice) {
    |Unique(n.refs)| <= 100 && AllBounded(n.refs, 2_000) && |n.unknowns| <= 100 && AllBounded(n.unknowns, 2_000)
  }

  lemma NoChecks(job: Job)
    requires job.incident.Some? && CiChecks(job, job.incident.value) == []
    ensures HandoffRefs(job) == Unique(OwnRefs(job))
    ensures ListsFit(job) <==> job.analysis.Some? ==> AdviceFits(job.analysis.value)
  {
    assert OwnRefs(job) + Links([]) == OwnRefs(job);
    hide AllBounded;
  }

  lemma DecisionListsFit(job: Job)
    requires Applicable(job) && job.approval.value.basis == Some(HumanDecision) && ApprovalBounded(job.approval.value)
    ensures job.analysis.Some?
    ensures ListsFit(job) && StatementsFit(job)
      && IsBounded(RecoverySummary(job.analysis, job.approval.value), MAX_SUMMARY)
      <==> FindingsFit(ReviewFindings(job)) && |ReviewFindings(job)| <= 99 && AdviceFits(job.analysis.value)
  {
    assert DecisionEligible(job);
    assert CiChecks(job, job.incident.value) == [];
    NoChecks(job);
    assert IsBounded(job.approval.value.reason, MAX_SUMMARY);
    hide Applicable, BindingAccepted, ListsFit, AdviceFits, FindingsFit, ReviewFindings, DecisionEligible, IsBounded;
  }

  /** Applying a human decision keeps the job invariant exactly when the review it answers has at most 99
    * findings and its texts, the Analyst's lists and the names the job uses fit. */
  lemma DecisionAcceptedExactly(job: Job, now: Stamp)
    requires JobInvariant(job) && job.state.RecoveryApproved? && Applicable(job) && IsTime(now)
    requires job.approval.value.basis == Some(HumanDecision)
    ensures job.analysis.Some?
    ensures JobInvariant(RecoveryApplied(job, now)) <==>
      NamesFit(job) && FindingsFit(ReviewFindings(job)) && |ReviewFindings(job)| <= 99 && AdviceFits(job.analysis.value)
  {
    SoundApprovalBounded(job);
    RecoveryKeepsInvariant(job, now);
    RecoveryAcceptedExactly(job, now);
    DecisionListsFit(job);
    hide *;
  }

  lemma PolicyIsNoCiRework(job: Job)
    requires Applicable(job) && job.approval.value.basis == Some(PolicyRule)
    ensures !job.incident.value.blockClass.CiFailed?
  {
    var a := job.approval.value;
    assert IsAutomaticApproval(job, a);
    assert job.activeAttempt.Some?;
    assert a.action in AllowedActions(job.incident.value.blockClass, job.incident.value.lane);
    hide Applicable, BindingAccepted, IsAutomaticApproval;
  }

  lemma PolicyListsFit(job: Job)
    requires job.approval.Some? && job.incident.Some? && !job.incident.value.blockClass.CiFailed?
    requires job.approval.value.basis == Some(PolicyRule)
    ensures ListsFit(job) && StatementsFit(job)
      && IsBounded(RecoverySummary(job.analysis, job.approval.value), MAX_SUMMARY)
      <==> match job.analysis
        case None => IsBounded(job.approval.value.reason, MAX_SUMMARY)
        case Some(n) => IsBounded(n.summary, MAX_SUMMARY) && BoundedOrNull(Brief(job), MAX_SUMMARY) && AdviceFits(n)
  {
    assert CiChecks(job, job.incident.value) == [];
    NoChecks(job);
    assert job.analysis.None? ==> Brief(job).None? && OwnUnknowns(job) == [];
    hide IsBounded, Brief, HandoffRefs, AdviceFits, ListsFit;
  }

  /** Applying policy's own approval keeps the job invariant exactly when its summary fits, the approval's
    * reason where no advice is involved, and so do the advice's texts and lists and the names the job uses. No
    * policy recovery is a CI rework. */
  lemma PolicyAcceptedExactly(job: Job, now: Stamp)
    requires JobInvariant(job) && job.state.RecoveryApproved? && Applicable(job) && IsTime(now)
    requires job.approval.value.basis == Some(PolicyRule)
    ensures !job.incident.value.blockClass.CiFailed?
    ensures JobInvariant(RecoveryApplied(job, now)) <==> NamesFit(job) && match job.analysis
      case None => IsBounded(job.approval.value.reason, MAX_SUMMARY)
      case Some(n) => IsBounded(n.summary, MAX_SUMMARY) && BoundedOrNull(Brief(job), MAX_SUMMARY) && AdviceFits(n)
  {
    SoundApprovalBounded(job);
    RecoveryKeepsInvariant(job, now);
    RecoveryAcceptedExactly(job, now);
    PolicyIsNoCiRework(job);
    PolicyListsFit(job);
    hide *;
  }

  /** The texts a CI recovery's handoff is made of are each acceptable. */
  predicate PartsOk(job: Job) {
    && job.approval.Some? && job.incident.Some? && job.analysis.Some? && job.ciFailure.Some?
    && var a, i, n := job.approval.value, job.incident.value, job.analysis.value;
    && job.revision >= 0
    && IsHex64(job.taskDigest)
    && job.activeAttempt.None?
    && IsBounded(i.id, 512)
    && IsHex64(i.evidence)
    && BoundedOrNull(a.analysisId, 512)
    && IsBounded(a.id, 512)
    && job.headSha.Some?
    && IsSha(job.headSha.value)
    && ShaOrNull(job.pullRequestHead)
    && a.basis == Some(AnalystAdvice) && a.action.RetryWorker? && 0 !in Statement(a.reason).summary
    && IsBounded(n.summary, MAX_SUMMARY) && (HasInk(n.brief) ==> IsBounded(n.brief, MAX_SUMMARY))
    && AllBounded(n.refs, 2_000) && AllBounded(n.unknowns, 2_000)
    && forall k :: 0 <= k < |job.ciFailure.value.checks| ==> CheckFits(job.ciFailure.value.checks[k])
  }

  /** The handoff of an approved CI recovery, whose texts are all acceptable, is accepted if and only if its
    * three lists fit: the invariant bounds no number of failed checks, so a pull request with 99 of them and an
    * Analyst's brief cannot be recovered, although the approving gate accepted it. */
  lemma CiHandoffAcceptedExactly(job: Job, now: Stamp)
    requires PartsOk(job) && job.incident.value.blockClass.CiFailed? && IsTime(now)
    ensures HandoffOk(RecoveryHandoff(job, now)) <==>
      && |job.ciFailure.value.checks| + (if HasInk(job.analysis.value.brief) then 2 else 1) <= MAX_OBLIGATIONS
      && |HandoffRefs(job)| <= 100 && |job.analysis.value.unknowns| <= 100
  {
    RecoveryAcceptedExactly(job, now);
    hide HandoffOk, RecoveryHandoff, IsBounded, HasInk, CheckFits, AllBounded, IsSha, IsHex64, HandoffRefs, Statement;
  }

  // ----- a concrete job on either side of the limit -----

  function Zeros(n: nat): (t: Text)
    ensures IsHexText(t, n)
  {
    seq(n, i => 0x30)
  }

  const T0 := Stamp(Some(0), 0)
  const INK: Text := [0x41]

  function FailedChecks(n: nat): (cs: seq<Check>)
    ensures |cs| == n && forall i :: 0 <= i < n ==> cs[i] == Check(INK, INK, Fail, [], None)
  {
    seq(n, i => Check(INK, INK, Fail, [], None))
  }

  /** An approved CI recovery of a pull request with n failed checks. */
  function CiJob(n: nat): Job {
    Job(INK, 1, RecoveryApproved, Plain(Zeros(64)), Zeros(40), true, Some(Zeros(40)), None, [], 1, None, [],
        Some(Incident(INK, CiFailed, Controller, None, INK, Plain(Zeros(64)), [RetryWorker, Hold], None, None, T0)),
        Some(Advice(INK, INK, Plain(Zeros(64)), RetryWorker, INK, INK, [], [], true)),
        Some(Approval(INK, 0, INK, Some(INK), RetryWorker, Some(AnalystAdvice), None, None, INK, INK, T0, None)),
        [], None, [], Some(Zeros(40)), Some(CiFailure(Zeros(40), T0, FailedChecks(n))), 0, None, None, T0)
  }

  lemma InkIsBounded()
    ensures HasInk(INK) && IsBounded(INK, 512) && IsBounded(INK, 2_000) && IsBounded(INK, 10_000) && !HasInk([])
  {
    assert !IsSpace(INK[0]);
  }

  lemma CiJobSound(n: nat)
    requires n > 0
    ensures JobInvariant(CiJob(n))
  {
    InkIsBounded();
    var job := CiJob(n);
    assert AllAttempts(job.attempts, job.activeAttempt) == [];
    hide IsBounded, HasInk, AllAttempts;
  }

  lemma PlainFits()
    ensures CheckFits(Check(INK, INK, Fail, [], None)) && 0 !in Statement(INK).summary
  {
    var c := Check(INK, INK, Fail, [], None);
    BoundTextSame(CheckText(c), MAX_SUMMARY);
    BoundTextSame(OperatorStatement() + INK, MAX_SUMMARY);
    hide BoundText;
  }

  lemma CiJobOk(n: nat)
    requires n > 0
    ensures JobInvariant(CiJob(n)) && Applicable(CiJob(n)) && PartsOk(CiJob(n))
  {
    CiJobSound(n);
    hide JobInvariant;
    InkIsBounded();
    var job := CiJob(n);
    assert Applicable(job) by {
      assert job.incident.value.allowed[0] == RetryWorker && AllowedActions(CiFailed, Controller)[0] == RetryWorker;
      hide IsBounded, HasInk;
    }
    PlainFits();
    hide IsBounded, HasInk, Applicable, CheckFits, Statement;
  }

  lemma {:induction false} NoLinks(n: nat)
    ensures Links(FailedChecks(n)) == []
  {
    if n > 0 {
      assert FailedChecks(n)[1..] == FailedChecks(n - 1);
      NoLinks(n - 1);
    }
  }

  /** The same sound and approved job is recovered with 98 failed checks and refused with 99. */
  lemma CiLimit(n: nat)
    requires n > 0
    ensures JobInvariant(CiJob(n)) && Applicable(CiJob(n))
    ensures JobInvariant(RecoveryApplied(CiJob(n), T0)) <==> n <= 98
  {
    var job := CiJob(n);
    CiJobOk(n);
    assert HandoffRefs(job) == [] by { NoLinks(n); }
    assert |job.ciFailure.value.checks| == n && |job.analysis.value.unknowns| == 0 && HasInk(job.analysis.value.brief)
        && job.incident.value.blockClass.CiFailed?
        && job.state.RecoveryApproved?
        && IsTime(T0) by { assert !IsSpace(INK[0]); }
    hide JobInvariant, Applicable, PartsOk, HandoffOk, RecoveryApplied, HandoffRefs, HasInk, RecoveryHandoff, CiJob,
        IsTime;
    RecoveryKeepsInvariant(job, T0);
    CiHandoffAcceptedExactly(job, T0);
  }
}
