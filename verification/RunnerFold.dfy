module RunnerFold {
  // The Pi RPC runner's fold over events, and when a run may be called ok.

  import opened Options
  import opened Utf16
  import opened Compaction

  // ----- events -----

  datatype EventType =
    | AgentStart | AgentEnd | AgentSettled | TurnStart | TurnEnd | MessageStart | MessageUpdate | MessageEnd
    | ToolExecutionStart | ToolExecutionUpdate | ToolExecutionEnd | BashExecutionUpdate | CompactionStart
      | CompactionEnd
    | ExtensionUiRequest | QueueUpdate | AutoRetryStart | AutoRetryEnd | SummarizationRetryScheduled
    | SummarizationRetryAttemptStart | SummarizationRetryFinished | ExtensionUiResponse
    | HarnessCredentialFailure | HarnessCompactionFailure
    | UnknownType(name: Text)

  datatype Classification = Observational | Progress | AuthorityChanging | Forbidden | UnknownSafe | UnknownUnsafe

  datatype Stop = EndedWell | EndedWithError | Aborted

  /** The parts of an event the fold reads. `projectedSafe` is the verdict on an unknown event's projected shape, and
    * `cleanupShape` says that a UI request is the one widget reset, with no other key. */
  datatype RpcEvent = RpcEvent(
    kind: EventType, assistant: bool, stop: Stop, willRetry: Option<bool>, projectedSafe: bool, cleanupShape: bool,
        compaction: Record)

  datatype Plan = Plan(reviewer: bool, controlled: bool)

  /** `PI_RPC_EVENT_CONTRACT` */
  function Known(k: EventType): Option<Classification> {
    match k
    case AgentStart => Some(AuthorityChanging)
    case AgentEnd => Some(AuthorityChanging)
    case AgentSettled => Some(Progress)
    case TurnStart => Some(Observational)
    case TurnEnd => Some(Observational)
    case MessageStart => Some(Progress)
    case MessageUpdate => Some(Progress)
    case MessageEnd => Some(Progress)
    case ToolExecutionStart => Some(Progress)
    case ToolExecutionUpdate => Some(Progress)
    case ToolExecutionEnd => Some(Progress)
    case BashExecutionUpdate => Some(Progress)
    case CompactionStart => Some(AuthorityChanging)
    case CompactionEnd => Some(AuthorityChanging)
    case ExtensionUiRequest => Some(AuthorityChanging)
    case QueueUpdate => Some(Forbidden)
    case AutoRetryStart => Some(Forbidden)
    case AutoRetryEnd => Some(Forbidden)
    case SummarizationRetryScheduled => Some(Forbidden)
    case SummarizationRetryAttemptStart => Some(Forbidden)
    case SummarizationRetryFinished => Some(Forbidden)
    case ExtensionUiResponse => Some(Forbidden)
    case _ => None
  }

  function Classify(e: RpcEvent): Classification {
    GetOr(Known(e.kind), if e.projectedSafe then UnknownSafe else UnknownUnsafe)
  }

  predicate IsCompaction(e: RpcEvent) {
    e.kind.CompactionStart? || e.kind.CompactionEnd?
  }

  // ----- the fold -----

  datatype RunState = RunState(
    failed: bool,            // the client's fatal error
    violation: bool, assistantFailed: bool, settled: bool, agentStarts: nat,
    phase: Phase, receipt: Option<Record>, compactionFailure: Option<Value>)

  const FRESH := RunState(false, false, false, false, 0, Idle, None, None)

  predicate IsUpdate(k: EventType) {
    k.MessageUpdate? || k.ToolExecutionUpdate? || k.BashExecutionUpdate?
  }

  predicate CleanupAllowed(plan: Plan, s: RunState, e: RpcEvent) {
    (s.agentStarts == 0 || s.settled) && plan.reviewer && e.cleanupShape
  }

  function Check(plan: Plan, s: RunState, e: RpcEvent): RunState {
    var class_ := Classify(e);
    var starts := s.agentStarts + (if e.kind.AgentStart? then 1 else 0);
    var accepted := if IsCompaction(e) then Accept(plan.controlled, e.compaction, s.phase)
        else Acceptance(s.phase, None, false, None);
    var dangling := e.kind.AgentSettled? && accepted.phase.Started?;
    s.(agentStarts := starts,
       assistantFailed := s.assistantFailed || (e.kind.MessageEnd? && e.assistant && !e.stop.EndedWell?),
       phase := accepted.phase,
       receipt := if accepted.receipt.Some? then accepted.receipt else s.receipt,
       compactionFailure := if dangling then Some(Str(FAILURE(ProtocolCode)))
                            else if accepted.failureCode.Some? then accepted.failureCode else s.compactionFailure,
       violation := s.violation
         || (e.kind.AgentStart? && starts > 1)
         || (e.kind.AgentEnd? && e.willRetry != Some(false))
         || (e.kind.ExtensionUiRequest? && !CleanupAllowed(plan, s.(agentStarts := starts), e))
         || accepted.error
         || class_.Forbidden?
         || (class_.AuthorityChanging? && !(e.kind.AgentStart? || e.kind.AgentEnd? || IsCompaction(e)
             || e.kind.ExtensionUiRequest?))
         || class_.UnknownUnsafe?
         || dangling,
       settled := s.settled || e.kind.AgentSettled?)
  }

  /** `persistEvent`; after a fatal error the client hands over no more events. */
  function Step(plan: Plan, s: RunState, e: RpcEvent): RunState {
    if s.failed then s
    else if e.kind.HarnessCredentialFailure? || e.kind.HarnessCompactionFailure? then s.(failed := true)
    else if IsUpdate(e.kind) then s
    else Check(plan, s, e)
  }

  function Fold(plan: Plan, events: seq<RpcEvent>): RunState {
    if events == [] then FRESH else Step(plan, Fold(plan, events[..|events| - 1]), events[|events| - 1])
  }

  /** The terminal receipt's decision. */
  predicate RunOk(s: RunState, deadlineFailed: bool, terminationRequested: bool, childExitClean: bool) {
    !s.failed && !deadlineFailed && !s.violation && !s.assistantFailed && !terminationRequested && s.settled
        && childExitClean
  }

  /** The runner's variables, changed in place by each event. */
  class Runner {
    const plan: Plan
    var failed: bool
    var policyViolation: bool
    var assistantFailed: bool
    var settled: bool
    var agentStarts: nat
    var compactionPhase: Phase
    var compactionReceipt: Option<Record>
    var compactionFailure: Option<Value>

    function Now(): RunState
      reads this
    {
      RunState(failed, policyViolation, assistantFailed, settled, agentStarts, compactionPhase, compactionReceipt,
          compactionFailure)
    }

    constructor (plan: Plan)
      ensures this.plan == plan && Now() == FRESH
    {
      this.plan := plan;
      failed, policyViolation, assistantFailed, settled, agentStarts := false, false, false, false, 0;
      compactionPhase, compactionReceipt, compactionFailure := Idle, None, None;
    }

    method PersistEvent(e: RpcEvent)
      modifies this
      ensures Now() == Step(plan, old(Now()), e)
    {
      hide Accept;
      if failed { return; }
      if e.kind.HarnessCredentialFailure? || e.kind.HarnessCompactionFailure? {
        failed := true;
        return;
      }
      var classification := Classify(e);
      if IsUpdate(e.kind) { return; }
      if e.kind.MessageEnd? && e.assistant && !e.stop.EndedWell? { assistantFailed := true; }
      if e.kind.AgentStart? {
        agentStarts := agentStarts + 1;
        if agentStarts > 1 { policyViolation := true; }
      }
      if e.kind.AgentEnd? && e.willRetry != Some(false) { policyViolation := true; }
      if e.kind.ExtensionUiRequest? && !CleanupAllowed(plan, Now(), e) { policyViolation := true; }
      if IsCompaction(e) {
        var accepted := Accept(plan.controlled, e.compaction, compactionPhase);
        compactionPhase := accepted.phase;
        if accepted.receipt.Some? { compactionReceipt := accepted.receipt; }
        if accepted.failureCode.Some? { compactionFailure := accepted.failureCode; }
        if accepted.error { policyViolation := true; }
      }
      if classification.Forbidden? { policyViolation := true; }
      if classification.AuthorityChanging? && !(e.kind.AgentStart? || e.kind.AgentEnd? || IsCompaction(e)
          || e.kind.ExtensionUiRequest?) {
        policyViolation := true;
      }
      if classification.UnknownUnsafe? { policyViolation := true; }
      if e.kind.AgentSettled? {
        if compactionPhase.Started? {
          compactionFailure := Some(Str(FAILURE(ProtocolCode)));
          policyViolation := true;
        }
        settled := true;
      }
    }
  }

  // ----- what an ok run means -----

  function Count(events: seq<RpcEvent>, k: EventType): nat {
    if events == [] then 0 else Count(events[..|events| - 1], k) + (if events[|events| - 1].kind == k then 1 else 0)
  }

  function Compactions(events: seq<RpcEvent>): seq<Record> {
    if events == [] then []
    else Compactions(events[..|events| - 1]) + (if IsCompaction(events[|events| - 1])
        then [events[|events| - 1].compaction] else [])
  }

  predicate IsStart(r: Record) { Is(r, KType, Str(COMPACTION_START)) }
  predicate IsCompletedEnd(r: Record) { Is(r, KType, Str(COMPACTION_END)) && Is(r, KOutcome, Str(COMPLETED)) }

  /** None, or one start with one completed end. */
  predicate NoneOrPair(rs: seq<Record>) {
    rs == [] || (|rs| == 2 && IsStart(rs[0]) && IsCompletedEnd(rs[1]))
  }

  /** A single event that no ok run contains. */
  predicate Benign(e: RpcEvent) {
    && !e.kind.HarnessCredentialFailure? && !e.kind.HarnessCompactionFailure?
    && (e.kind.AgentEnd? ==> e.willRetry == Some(false))
    && !Classify(e).Forbidden? && !Classify(e).UnknownUnsafe?
    && (Classify(e).AuthorityChanging?
      ==> e.kind.AgentStart? || e.kind.AgentEnd? || IsCompaction(e) || e.kind.ExtensionUiRequest?)
    && (e.kind.MessageEnd? && e.assistant ==> e.stop.EndedWell?)
    && (e.kind.ExtensionUiRequest? ==> e.cleanupShape)
  }

  predicate Clean(s: RunState) {
    !s.failed && !s.violation && !s.assistantFailed
  }

  /** Recorded trouble is never cleared, and neither is settlement. */
  lemma {:induction false} TroubleStays(plan: Plan, events: seq<RpcEvent>, m: nat)
    requires m <= |events|
    ensures var s, t := Fold(plan, events[..m]), Fold(plan, events);
      (s.failed ==> t.failed) && (s.violation ==> t.violation) && (s.assistantFailed ==> t.assistantFailed)
          && (s.settled ==> t.settled)
    decreases |events|
  {
    if m == |events| {
      assert events[..m] == events;
    } else {
      var front := events[..|events| - 1];
      assert front[..m] == events[..m];
      TroubleStays(plan, front, m);
      hide Accept, Classify;
    }
  }

  predicate PhaseMatches(plan: Plan, s: RunState, rs: seq<Record>) {
    match s.phase
    case Idle => rs == []
    case Started => plan.controlled && |rs| == 1 && IsStart(rs[0])
    case Ended => plan.controlled && |rs| == 2 && IsStart(rs[0]) && IsCompletedEnd(rs[1])
  }

  lemma AcceptedPhase(plan: Plan, r: Record, phase: Phase)
    requires !Accept(plan.controlled, r, phase).error
    ensures plan.controlled
    ensures (phase.Idle? && Accept(plan.controlled, r, phase).phase.Started? && IsStart(r))
         || (phase.Started? && Accept(plan.controlled, r, phase).phase.Ended? && IsCompletedEnd(r))
  {
    hide BaseOk, CountersOk;
  }

  /** A Reviewer's cleanup request may come before the agent starts or after it settled. */
  predicate CleanupAt(plan: Plan, before: seq<RpcEvent>) {
    plan.reviewer && (Count(before, AgentStart) == 0 || Count(before, AgentSettled) > 0)
  }

  ghost predicate History(plan: Plan, s: RunState, events: seq<RpcEvent>) {
    && s.agentStarts == Count(events, AgentStart) && s.agentStarts <= 1
    && (s.settled <==> Count(events, AgentSettled) > 0)
    && (forall i :: 0 <= i < |events| ==> Benign(events[i]))
    && (forall k :: 0 <= k < |events| && events[k].kind.AgentSettled? ==> NoneOrPair(Compactions(events[..k])))
    && (forall k :: 0 <= k < |events| && events[k].kind.ExtensionUiRequest? ==> CleanupAt(plan, events[..k]))
    && PhaseMatches(plan, s, Compactions(events))
  }

  lemma StepHistory(plan: Plan, s: RunState, front: seq<RpcEvent>, e: RpcEvent)
    requires Clean(s) && Clean(Step(plan, s, e))
    requires s.agentStarts == Count(front, AgentStart)
      && s.agentStarts <= 1
      && (s.settled <==> Count(front, AgentSettled) > 0)
    requires PhaseMatches(plan, s, Compactions(front))
    ensures var t := Step(plan, s, e);
      && Benign(e)
      && t.agentStarts == s.agentStarts + (if e.kind.AgentStart? then 1 else 0)
      && t.agentStarts <= 1
      && t.settled == (s.settled || e.kind.AgentSettled?)
      && (e.kind.AgentSettled? ==> NoneOrPair(Compactions(front)))
      && (e.kind.ExtensionUiRequest? ==> CleanupAt(plan, front))
      && PhaseMatches(plan, t, if IsCompaction(e) then Compactions(front) + [e.compaction] else Compactions(front))
  {
    if IsCompaction(e) { AcceptedPhase(plan, e.compaction, s.phase); }
    hide Accept, Count, Compactions;
  }

  /** The positional parts of a history extend by one event. */
  lemma HistoryExtends(plan: Plan, front: seq<RpcEvent>, e: RpcEvent, events: seq<RpcEvent>)
    requires events == front + [e] && Benign(e)
    requires forall i :: 0 <= i < |front| ==> Benign(front[i])
    requires forall k :: 0 <= k < |front| && front[k].kind.AgentSettled? ==> NoneOrPair(Compactions(front[..k]))
    requires forall k :: 0 <= k < |front| && front[k].kind.ExtensionUiRequest? ==> CleanupAt(plan, front[..k])
    requires e.kind.AgentSettled? ==> NoneOrPair(Compactions(front))
    requires e.kind.ExtensionUiRequest? ==> CleanupAt(plan, front)
    ensures forall i :: 0 <= i < |events| ==> Benign(events[i])
    ensures forall k :: 0 <= k < |events| && events[k].kind.AgentSettled? ==> NoneOrPair(Compactions(events[..k]))
    ensures forall k :: 0 <= k < |events| && events[k].kind.ExtensionUiRequest? ==> CleanupAt(plan, events[..k])
  {
    forall k | 0 <= k < |events|
      ensures Benign(events[k])
      ensures events[k].kind.AgentSettled? ==> NoneOrPair(Compactions(events[..k]))
      ensures events[k].kind.ExtensionUiRequest? ==> CleanupAt(plan, events[..k])
    {
      assert k < |front| ==> front[..k] == events[..k] && front[k] == events[k];
      assert k == |front| ==> events[..k] == front;
      hide Benign, NoneOrPair, Compactions, CleanupAt;
    }
  }

  lemma LastEvent(plan: Plan, front: seq<RpcEvent>, e: RpcEvent)
    ensures Fold(plan, front + [e]) == Step(plan, Fold(plan, front), e)
    ensures Count(front + [e], AgentStart) == Count(front, AgentStart) + (if e.kind.AgentStart? then 1 else 0)
    ensures Count(front + [e], AgentSettled) == Count(front, AgentSettled) + (if e.kind.AgentSettled? then 1 else 0)
    ensures Compactions(front + [e]) == if IsCompaction(e) then Compactions(front) + [e.compaction]
        else Compactions(front)
  {
    assert (front + [e])[..|front|] == front;
    hide Step;
  }

  lemma EmptyHistory(plan: Plan)
    ensures History(plan, Fold(plan, []), [])
  {
  }

  lemma {:induction false} CleanRunHistory(plan: Plan, events: seq<RpcEvent>)
    requires Clean(Fold(plan, events))
    ensures History(plan, Fold(plan, events), events)
  {
    hide Step, Benign, NoneOrPair, PhaseMatches, CleanupAt, Fold, Count, Compactions, IsCompaction;
    if events == [] {
      EmptyHistory(plan);
    } else {
      var front, e := events[..|events| - 1], events[|events| - 1];
      assert events == front + [e];
      TroubleStays(plan, events, |events| - 1);
      CleanRunHistory(plan, front);
      LastEvent(plan, front, e);
      StepHistory(plan, Fold(plan, front), front, e);
      HistoryExtends(plan, front, e, events);
    }
  }

  /** A run whose terminal receipt says ok started the agent at most once, never left a retry open, saw no
    * forbidden, unsafe or unvalidated event and no assistant error, made UI requests only as a Reviewer's
    * cleanup outside its agent run, settled, and had before every settlement no compaction event or one start
    * with one completed end. */
  lemma OkRunIsClean(plan: Plan, events: seq<RpcEvent>, deadlineFailed: bool, terminationRequested: bool,
      childExitClean: bool)
    requires RunOk(Fold(plan, events), deadlineFailed, terminationRequested, childExitClean)
    ensures Count(events, AgentStart) <= 1 && Count(events, AgentSettled) > 0
    ensures forall i :: 0 <= i < |events| ==> Benign(events[i])
    ensures forall k :: 0 <= k < |events| && events[k].kind.AgentSettled? ==> NoneOrPair(Compactions(events[..k]))
    ensures forall k :: 0 <= k < |events| && events[k].kind.ExtensionUiRequest? ==> CleanupAt(plan, events[..k])
  {
    CleanRunHistory(plan, events);
  }

  // ----- exactly when a run is ok, on its events -----

  /** An event no rule is against after those before it: the first agent start, an end that rules out a retry, a
    * settlement with no compaction open, a Reviewer's cleanup outside its agent run, the start of the one
    * compaction and its completion, an assistant message that ended well, ordinary progress, and an unknown
    * event of a safe shape. */
  ghost predicate Fits(plan: Plan, before: seq<RpcEvent>, e: RpcEvent) {
    match e.kind
    case AgentStart => forall i :: 0 <= i < |before| ==> !before[i].kind.AgentStart?
    case AgentEnd => e.willRetry == Some(false)
    case AgentSettled => |Compactions(before)| != 1
    case TurnStart => true
    case TurnEnd => true
    case MessageStart => true
    case MessageUpdate => true
    case MessageEnd => e.assistant ==> e.stop.EndedWell?
    case ToolExecutionStart => true
    case ToolExecutionUpdate => true
    case ToolExecutionEnd => true
    case BashExecutionUpdate => true
    case CompactionStart => FitsCompaction(plan, Compactions(before), e.compaction)
    case CompactionEnd => FitsCompaction(plan, Compactions(before), e.compaction)
    case ExtensionUiRequest =>
      && plan.reviewer && e.cleanupShape
      && ((forall i :: 0 <= i < |before| ==> !before[i].kind.AgentStart?)
          || exists i :: 0 <= i < |before| && before[i].kind.AgentSettled?)
    case UnknownType(_) => e.projectedSafe
    case _ => false
  }

  ghost predicate FitsCompaction(plan: Plan, rs: seq<Record>, r: Record) {
    plan.controlled && ((rs == [] && StartShape(r)) || (|rs| == 1 && CompletionShape(r)))
  }

  ghost predicate AllFit(plan: Plan, events: seq<RpcEvent>) {
    forall k :: 0 <= k < |events| ==> Fits(plan, events[..k], events[k])
  }

  lemma {:induction false} CountIs(events: seq<RpcEvent>, k: EventType)
    ensures Count(events, k) == 0 <==> forall i :: 0 <= i < |events| ==> events[i].kind != k
  {
    if events != [] {
      var n := |events| - 1;
      CountIs(events[..n], k);
      assert forall i :: 0 <= i < n ==> events[i] == events[..n][i];
    }
  }

  /** Where the machine stands after the compaction events so far. */
  predicate PhaseAfter(rs: seq<Record>, phase: Phase) {
    match phase
    case Idle => |rs| == 0
    case Started => |rs| == 1
    case Ended => |rs| == 2
  }

  /** What the fold keeps of a clean run. */
  ghost predicate Tracks(s: RunState, events: seq<RpcEvent>) {
    && s.agentStarts == Count(events, AgentStart) && (s.settled <==> Count(events, AgentSettled) > 0)
    && PhaseAfter(Compactions(events), s.phase)
  }

  lemma CompactionFits(plan: Plan, rs: seq<Record>, r: Record, phase: Phase)
    requires PhaseAfter(rs, phase)
    ensures !Accept(plan.controlled, r, phase).error <==> FitsCompaction(plan, rs, r)
    ensures FitsCompaction(plan, rs, r) ==> PhaseAfter(rs + [r], Accept(plan.controlled, r, phase).phase)
  {
    AcceptExactly(r, phase);
    hide StartShape, CompletionShape, FailureShape, ReceiptFor, Accept;
  }

  /** A clean run stays clean after a compaction event exactly when the machine accepts it. */
  lemma CompactionStep(plan: Plan, s: RunState, e: RpcEvent)
    requires Clean(s) && IsCompaction(e)
    ensures var t, a := Step(plan, s, e), Accept(plan.controlled, e.compaction, s.phase);
      (Clean(t) <==> !a.error) && t.phase == a.phase && t.agentStarts == s.agentStarts && t.settled == s.settled
  {
    hide Accept;
  }

  /** And after any other event exactly when it breaks no rule; the machine stands still. */
  lemma OtherStep(plan: Plan, s: RunState, front: seq<RpcEvent>, e: RpcEvent)
    requires Clean(s) && Tracks(s, front) && !IsCompaction(e)
    ensures Clean(Step(plan, s, e)) <==> Fits(plan, front, e)
    ensures Clean(Step(plan, s, e)) ==>
      var t := Step(plan, s, e);
      && t.phase == s.phase && t.agentStarts == s.agentStarts + (if e.kind.AgentStart? then 1 else 0)
      && t.settled == (s.settled || e.kind.AgentSettled?)
  {
    CountIs(front, AgentStart);
    CountIs(front, AgentSettled);
    hide Accept, FitsCompaction, Count, Compactions;
  }

  lemma StepFits(plan: Plan, s: RunState, front: seq<RpcEvent>, e: RpcEvent)
    requires Clean(s) && Tracks(s, front)
    ensures Clean(Step(plan, s, e)) <==> Fits(plan, front, e)
    ensures Clean(Step(plan, s, e)) ==> Tracks(Step(plan, s, e), front + [e])
  {
    LastEvent(plan, front, e);
    if IsCompaction(e) {
      CompactionStep(plan, s, e);
      CompactionFits(plan, Compactions(front), e.compaction, s.phase);
      assert Fits(plan, front, e) <==> FitsCompaction(plan, Compactions(front), e.compaction);
      hide Step, Clean, Fits, FitsCompaction, Accept, Count, Compactions, Fold;
    } else {
      OtherStep(plan, s, front, e);
      hide Step, Clean, Fits, FitsCompaction, Accept, Count, Compactions, Fold;
    }
  }

  lemma {:induction false} CleanExactly(plan: Plan, events: seq<RpcEvent>)
    ensures Clean(Fold(plan, events)) <==> AllFit(plan, events)
    ensures Clean(Fold(plan, events)) ==> Tracks(Fold(plan, events), events)
  {
    if events != [] {
      var front, e := events[..|events| - 1], events[|events| - 1];
      assert events == front + [e];
      CleanExactly(plan, front);
      AllFitExtends(plan, front, e);
      TroubleStays(plan, events, |events| - 1);
      LastEvent(plan, front, e);
      hide Step, Fits, AllFit, Tracks, Fold, Count, Compactions;
      if Clean(Fold(plan, front)) { StepFits(plan, Fold(plan, front), front, e); }
    }
  }

  lemma AllFitExtends(plan: Plan, front: seq<RpcEvent>, e: RpcEvent)
    ensures AllFit(plan, front + [e]) <==> AllFit(plan, front) && Fits(plan, front, e)
  {
    hide Fits;
    var events := front + [e];
    assert events[..|front|] == front && events[|front|] == e;
    forall k | 0 <= k < |front| ensures events[..k] == front[..k] && events[k] == front[k] {}
    if AllFit(plan, events) {
      assert Fits(plan, events[..|front|], events[|front|]);
      forall k | 0 <= k < |front| ensures Fits(plan, front[..k], front[k]) {
        assert Fits(plan, events[..k], events[k]);
      }
    }
  }

  /** A run is ok exactly when no deadline failed, no termination was asked for, the child exited cleanly, the agent
    * settled, and every event fits those before it. */
  lemma OkExactly(plan: Plan, events: seq<RpcEvent>, deadlineFailed: bool, terminationRequested: bool,
      childExitClean: bool)
    ensures RunOk(Fold(plan, events), deadlineFailed, terminationRequested, childExitClean) <==>
      && !deadlineFailed && !terminationRequested && childExitClean
      && (exists i :: 0 <= i < |events| && events[i].kind.AgentSettled?)
      && AllFit(plan, events)
  {
    CleanExactly(plan, events);
    CountIs(events, AgentSettled);
    hide Fold, AllFit, Count;
  }

  // ----- where settlement is not the last word -----

  function Plain(k: EventType): RpcEvent {
    RpcEvent(k, false, EndedWell, Some(false), true, false, map[])
  }

  function Digest64(): (t: Text)
    ensures IsLowerHex64(t)
  {
    seq(64, i => 0x30)
  }

  function LateStart(): Record {
    map[KType := Str(COMPACTION_START), KSource := Str(CONTROLLED), KReason := Str(THRESHOLD), KCount := Num(1),
        KTriggerPercent := Num(75),
        KContextTokens := Num(75), KContextWindow := Num(100), KPayloadByteEstimate := Num(0),
            KAttemptCount := Num(1), KUsedRetry := Bool(false),
        KWillRetry := Bool(false), KPayloadBytes := Num(0), KPayloadDigest := Str(Other(Digest64()))]
  }

  lemma LateStartAccepted()
    ensures Accept(true, LateStart(), Idle) == Acceptance(Started, None, false, None)
  {
    hide IsLowerHex64;
    var keys := LateStart().Keys;
    assert keys == StartKeySet();
  }

  /** What folding and collecting one more event does. */
  lemma OneMore(plan: Plan, events: seq<RpcEvent>, e: RpcEvent)
    ensures Fold(plan, events + [e]) == Step(plan, Fold(plan, events), e)
    ensures Compactions(events + [e]) == Compactions(events) + if IsCompaction(e) then [e.compaction] else []
  {
    hide Step;
    assert (events + [e])[..|events|] == events;
  }

  lemma LateStartSteps(late: RpcEvent)
    requires late == Plain(CompactionStart).(compaction := LateStart())
    ensures Step(Plan(false, true), FRESH, Plain(AgentSettled)) == FRESH.(settled := true)
    ensures Step(Plan(false, true), FRESH.(settled := true), late) == FRESH.(settled := true, phase := Started)
  {
    LateStartAccepted();
    hide Accept, LateStart;
  }

  /** Only compaction events before a settlement are paired: one that starts after the last settlement is left
    * open by an ok run. */
  lemma LateCompactionDangles()
    ensures var events := [Plain(AgentSettled), Plain(CompactionStart).(compaction := LateStart())];
      RunOk(Fold(Plan(false, true), events), false, false, true) && !NoneOrPair(Compactions(events))
  {
    var late := Plain(CompactionStart).(compaction := LateStart());
    LateStartSteps(late);
    hide Step, LateStart;
    OneMore(Plan(false, true), [], Plain(AgentSettled));
    OneMore(Plan(false, true), [Plain(AgentSettled)], late);
    assert [] + [Plain(AgentSettled)] == [Plain(AgentSettled)];
    assert [Plain(AgentSettled)] + [late] == [Plain(AgentSettled), late];
    hide Fold, Compactions;
    assert [] + [LateStart()] == [LateStart()];
  }

  /** The last compaction event, if there is one, is a start. */
  predicate EndsInStart(events: seq<RpcEvent>) {
    events != [] && (if IsCompaction(events[|events| - 1]) then IsStart(events[|events| - 1].compaction)
                     else EndsInStart(events[..|events| - 1]))
  }

  lemma {:induction false} EndsInStartIs(events: seq<RpcEvent>)
    ensures var rs := Compactions(events); EndsInStart(events) <==> rs != [] && IsStart(rs[|rs| - 1])
  {
    hide IsStart;
    if events != [] { EndsInStartIs(events[..|events| - 1]); }
  }

  /** Exactly when every compaction event of an ok run is paired: when the last of them, if any, is not a start. */
  lemma OkRunPairsExactly(plan: Plan, events: seq<RpcEvent>)
    requires RunOk(Fold(plan, events), false, false, true)
    ensures NoneOrPair(Compactions(events)) <==> !EndsInStart(events)
    ensures Fold(plan, events).phase.Started? <==> EndsInStart(events)
  {
    CleanRunHistory(plan, events);
    EndsInStartIs(events);
  }
}
