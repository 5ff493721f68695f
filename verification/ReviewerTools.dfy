module ReviewerTools {
  // The Reviewer's tools: preflight, two review axes with one authorised retry each, a byte budget, a durable
  // aggregation and one submission. Tool calls and results arrive in any order, and any write may fail.

  import opened Options
  import opened Utf16
  import opened Ledger

  // ----- values -----

  datatype Axis = Standards | Spec
  datatype AxisFinding = AxisFinding(severity: Severity, summary: Text, refs: seq<Text>)
  datatype AxisStatus = AxisPass | AxisChanges
  datatype AxisResult = AxisResult(status: AxisStatus, summary: Text, findings: seq<AxisFinding>)

  /** What one axis returned: not usable (perhaps worth one retry), or a structured result. */
  datatype Projected = Unusable(failure: bool, retryable: bool) | Usable(result: AxisResult)

  datatype Final = Final(status: ReviewStatus, summary: Text, findings: seq<Finding>)

  /** The bound validation receipt: whether it passed, and the finding a failed one stands for. */
  datatype Receipt = Passed | FailedChecks(finding: Finding)

  datatype Checkpoint = PreflightPoint | AxisPoint(axis: Axis) | FinalPoint

  datatype Task = Task(axis: Axis, brief: Text)
  type CallId = nat

  datatype Config = Config(
    concurrency: int, budget: nat, reserve: nat, initialBytes: nat, checkpointing: bool, receipt: Receipt,
    reusedPreflight: Option<bool>,       // some: reused; true when it is bound to this receipt
    reused: map<Axis, AxisResult>, reusedValidation: bool, reusedFinal: Option<Final>)

  datatype Submission = Submission(final: Final, exceeded: bool)

  datatype Session = Session(
    preflight: Option<bool>,
    submitted: bool,
    failures: set<Axis>,
    calls: map<CallId, seq<Task>>,
    briefs: map<Axis, Text>,
    launches: map<Axis, nat>,
    retry: set<Axis>,
    results: map<Axis, AxisResult>,
    axesCompleted: bool,
    final: Option<Final>,
    used: nat,
    exceeded: bool,
    // on disk: the checkpoints this Attempt published and its result
    published: set<Checkpoint>,
    finalFile: Option<Final>,
    resultFile: Option<Submission>,
    // history: an aggregated final whose checkpoint was never linked
    lost: bool)

  /** Which exclusive links succeed in a handler, and which of those also finish without an error. */
  datatype Disk = Disk(links: set<Checkpoint>, clean: set<Checkpoint>)

  datatype Size = Size(bytes: nat, rejected: nat)

  datatype Event =
    | SubagentCall(id: CallId, runtimeOk: bool, tasks: Option<seq<Task>>)
    | AxesReturn(id: CallId, captured: bool, outcome: map<Axis, Projected>, disk: Disk, size: Size)
    | GenericReturn(projected: bool, size: Size)
    | Preflight(readable: bool, disk: Disk, size: Size)
    | Submit(params: Final, audit: Text, readable: bool, disk: Disk, resultLinked: bool, resultClean: bool, size: Size)

  // ----- aggregation -----

  function SubmittedFindings(fs: seq<AxisFinding>): (r: seq<Finding>)
    ensures |r| == |fs| && forall i ::
      0 <= i < |fs| ==> r[i] == Finding(fs[i].severity, fs[i].summary, Join(fs[i].refs))
  {
    seq(|fs|, i requires 0 <= i < |fs| => Finding(fs[i].severity, fs[i].summary, Join(fs[i].refs)))
  }

  function ValidationFindings(r: Receipt): seq<Finding> {
    if r.FailedChecks? then [r.finding] else []
  }

  function Decimal(n: nat): Text {
    (if n < 10 then [] else Decimal(n / 10)) + [0x30 + n % 10]
  }

  function AllPassed(): Text {
    Ascii("Standards and Spec passed; ") + Ascii("deterministic validation passed.")
  }

  function CountSummary(n: nat): Text {
    Ascii("Reviewer aggregation produced ") + Decimal(n) + Ascii(" actionable finding")
        + (if n == 1 then [] else Ascii("s")) + Ascii(".")
  }

  predicate BothAxes(results: map<Axis, AxisResult>) {
    Standards in results && Spec in results
  }

  function Aggregate(results: map<Axis, AxisResult>, receipt: Receipt): Final
    requires BothAxes(results)
  {
    var findings := SubmittedFindings(results[Standards].findings) + SubmittedFindings(results[Spec].findings)
        + ValidationFindings(receipt);
    if findings != [] || results[Standards].status.AxisChanges? || results[Spec].status.AxisChanges?
        || receipt.FailedChecks?
    then Final(Changes, CountSummary(|findings|), findings)
    else Final(Passes, AllPassed(), findings)
  }

  /** What a final checkpoint may hold: at most 64 findings, each of bounded size. */
  predicate FinalFits(f: Final) {
    && HasInk(f.summary) && |f.summary| <= 4_000 && |f.findings| <= 64
    && (forall i :: 0 <= i < |f.findings| ==>
         HasInk(f.findings[i].summary) && |f.findings[i].summary| <= 1_000
         && HasInk(f.findings[i].evidence) && |f.findings[i].evidence| <= 4_000)
    && (f.status.Passes? ==> f.findings == []) && (f.status.Changes? ==> f.findings != [])
  }

  // ----- start-up -----

  /** Reused checkpoints are dependency-closed: a final comes with its validation and both axes. */
  predicate DependencyClosed(c: Config) {
    c.reusedFinal.Some? ==> c.reusedValidation && BothAxes(c.reused)
  }

  predicate ConfigOk(c: Config) {
    (c.concurrency == 1 || c.concurrency == 2) && c.reserve >= 1 && c.initialBytes + c.reserve <= c.budget
        && DependencyClosed(c)
    && (!c.checkpointing ==> c.reused == map[] && c.reusedFinal.None? && c.reusedPreflight.None?)
  }

  function Start(c: Config): Session {
    Session(None, false, {}, map[], map[], map[], {}, c.reused, BothAxes(c.reused), c.reusedFinal, c.initialBytes,
        false, {}, None, None, false)
  }

  // ----- budgetedToolResult -----

  /** Whether an answer is accounted in full: an ordinary one leaves the reserve, a reserved one may use it. */
  predicate Fits(c: Config, s: Session, size: Size, reserved: bool) {
    (!s.exceeded || reserved) && s.used + size.bytes <= (if reserved then c.budget else c.budget - c.reserve)
  }

  /** The bytes accounted after an answer, or after the refusal of one that does not fit. */
  function BytesAfter(c: Config, s: Session, size: Size, reserved: bool): nat {
    if Fits(c, s, size, reserved) then s.used + size.bytes
    else if s.used + size.rejected <= c.budget then s.used + size.rejected else s.used
  }

  function Respond(c: Config, s: Session, size: Size, reserved: bool): Session {
    s.(used := BytesAfter(c, s, size, reserved), exceeded := s.exceeded || !Fits(c, s, size, reserved))
  }

  // ----- publishing -----

  /** Whether the checkpoint's exclusive link is made: its contents fit and the path is free. */
  predicate Links(c: Config, s: Session, p: Checkpoint, fits: bool, disk: Disk) {
    c.checkpointing && fits && p !in s.published && p in disk.links
  }

  /** Whether publishing returns normally. */
  predicate Publishes(c: Config, s: Session, p: Checkpoint, fits: bool, disk: Disk) {
    !c.checkpointing || (Links(c, s, p, fits, disk) && p in disk.clean)
  }

  function Publish(c: Config, s: Session, p: Checkpoint, fits: bool, disk: Disk): Session {
    s.(published := if Links(c, s, p, fits, disk) then s.published + {p} else s.published)
  }

  function PublishFinal(c: Config, s: Session, f: Final, disk: Disk): Session {
    var links := Links(c, s, FinalPoint, FinalFits(f), disk);
    s.(published := if links then s.published + {FinalPoint} else s.published,
       finalFile := if links then Some(f) else s.finalFile)
  }

  // ----- tool_call -----

  /** `reviewerAxisStartupAllowed` */
  predicate StartupAllowed(concurrency: int, standardsComplete: bool, tasks: seq<Task>) {
    && (concurrency == 1 || concurrency == 2) && 1 <= |tasks| <= concurrency
    && tasks[0].axis == (if standardsComplete then Spec else Standards)
    && (|tasks| == 2 ==> tasks[0].axis.Standards? && tasks[1].axis.Spec?)
  }

  function Count(s: Session, a: Axis): nat {
    if a in s.launches then s.launches[a] else 0
  }

  predicate MayLaunch(s: Session, t: Task) {
    && t.axis !in s.results && (Count(s, t.axis) > 0 ==> t.axis in s.retry)
    && (t.axis in s.briefs ==> s.briefs[t.axis] == t.brief)
  }

  predicate CallAllowed(c: Config, s: Session, e: Event)
    requires e.SubagentCall?
  {
    && !s.exceeded && s.preflight == Some(true) && e.runtimeOk && e.tasks.Some?
    && StartupAllowed(c.concurrency, Standards in s.results, e.tasks.value)
    && forall i :: 0 <= i < |e.tasks.value| ==> MayLaunch(s, e.tasks.value[i])
  }

  function Launch(s: Session, t: Task): Session {
    s.(briefs := if t.axis in s.briefs then s.briefs else s.briefs[t.axis := t.brief],
       retry := s.retry - {t.axis}, launches := s.launches[t.axis := Count(s, t.axis) + 1])
  }

  function LaunchAll(s: Session, tasks: seq<Task>): Session
    decreases |tasks|
  {
    if tasks == [] then s else LaunchAll(Launch(s, tasks[0]), tasks[1..])
  }

  function StepCall(c: Config, s: Session, e: Event): Session
    requires e.SubagentCall?
  {
    if CallAllowed(c, s, e) then LaunchAll(s, e.tasks.value).(calls := s.calls[e.id := e.tasks.value]) else s
  }

  // ----- tool_result -----

  datatype Handled = Handled(session: Session, threw: bool)

  function SettleOne(c: Config, s: Session, a: Axis, p: Projected, disk: Disk): Handled {
    match p
    case Unusable(failure, retryable) =>
      Handled(s.(failures := if failure then s.failures + {a} else s.failures,
                 retry := if retryable && Count(s, a) == 1 then s.retry + {a} else s.retry), false)
    case Usable(result) =>
      var ok := Publishes(c, s, AxisPoint(a), true, disk);
      Handled(s.(failures := s.failures - {a},
                 published := if Links(c, s, AxisPoint(a), true, disk) then s.published + {AxisPoint(a)}
                   else s.published,
                 results := if ok then s.results[a := result] else s.results), !ok)
  }

  function Returned(outcome: map<Axis, Projected>, a: Axis): Projected {
    if a in outcome then outcome[a] else Unusable(true, false)
  }

  function SettleAll(c: Config, s: Session, tasks: seq<Task>, outcome: map<Axis, Projected>, disk: Disk): Handled
    decreases |tasks|
  {
    if tasks == [] then Handled(s, false)
    else
      var a := tasks[0].axis;
      var one := SettleOne(c, s, a, Returned(outcome, a), disk);
      if one.threw then one else SettleAll(c, one.session, tasks[1..], outcome, disk)
  }

  predicate FinalDue(s: Session) {
    s.axesCompleted && s.preflight == Some(true) && s.final.None? && BothAxes(s.results)
  }

  /** The aggregation after an axis result: the final is kept even when publishing it fails. */
  function Finalize(c: Config, s: Session, disk: Disk): Handled {
    if FinalDue(s) then
      var f := Aggregate(s.results, c.receipt);
      var held := PublishFinal(c, s, f, disk);
      Handled(held.(final := Some(f),
                    lost := s.lost || (c.checkpointing && !Links(c, s, FinalPoint, FinalFits(f), disk))),
              !Publishes(c, s, FinalPoint, FinalFits(f), disk))
    else Handled(s, false)
  }

  function SettleCall(c: Config, s: Session, e: Event): Handled
    requires e.AxesReturn? && e.id in s.calls
  {
    if e.captured then SettleAll(c, s, s.calls[e.id], e.outcome, e.disk) else Handled(s, false)
  }

  /** The call is over, and completion is read off the axis results. */
  function Retire(s: Session, id: CallId): Session {
    s.(calls := s.calls - {id}, axesCompleted := BothAxes(s.results))
  }

  function Answer(c: Config, s: Session, size: Size): Session {
    var answered := Respond(c, s, size, false);
    answered.(axesCompleted := answered.axesCompleted && !answered.exceeded)
  }

  function StepAxes(c: Config, s: Session, e: Event): Session
    requires e.AxesReturn? && e.id in s.calls
  {
    var settled := SettleCall(c, s, e);
    if settled.threw then settled.session
    else
      var final := Finalize(c, Retire(settled.session, e.id), e.disk);
      if final.threw then final.session else Answer(c, final.session, e.size)
  }

  function StepGeneric(c: Config, s: Session, projected: bool, size: Size): Session {
    if projected then Respond(c, s, size, false) else Respond(c, s.(exceeded := true), size, true)
  }

  // ----- review_preflight -----

  /** The checks before the environment is reported ready, and the checkpoint that records them. */
  predicate PreflightChecks(c: Config, s: Session, readable: bool, disk: Disk) {
    readable && (if c.reusedPreflight.Some? then c.reusedPreflight.value
        else Publishes(c, s, PreflightPoint, true, disk))
  }

  /** The environment's checkpoint, which only a readable environment without a reused one publishes. */
  function Checked(c: Config, s: Session, readable: bool, disk: Disk): Session {
    s.(published := if readable && c.reusedPreflight.None? && Links(c, s, PreflightPoint, true, disk)
                    then s.published + {PreflightPoint} else s.published)
  }

  predicate Complete(s: Session) {
    s.axesCompleted && BothAxes(s.results)
  }

  /** A reused final that is not the aggregation of the reused axes. */
  predicate Contradicted(c: Config, s: Session) {
    Complete(s) && s.final.Some? && s.final.value != Aggregate(s.results, c.receipt)
  }

  /** The first preflight's verdict is kept for good, even a failing one. With both axes reused it aggregates them. */
  function AfterPreflight(c: Config, s: Session, readable: bool, disk: Disk): Session {
    var checked := Checked(c, s, readable, disk);
    var ready := PreflightChecks(c, s, readable, disk);
    if ready && Complete(s) && !Contradicted(c, s) then
      var final := Finalize(c, checked.(preflight := Some(true)), disk);
      final.session.(preflight := Some(!final.threw))
    else checked.(preflight := Some(ready && !Complete(s)))
  }

  function StepPreflight(c: Config, s: Session, readable: bool, disk: Disk, size: Size): Session {
    Respond(c, if s.preflight.Some? then s else AfterPreflight(c, s, readable, disk), size, false)
  }

  // ----- review_submit -----

  predicate Decisive(status: ReviewStatus) {
    status.Passes? || status.Changes?
  }

  function AxisFailure(): Text {
    Ascii("Harness Review Axis failure: ")
  }

  function BlockedSummary(summary: Text, failures: set<Axis>, audit: Text): Text {
    if failures == {} then summary
    else
      var record := AxisFailure() + audit;
      var room := if 4_000 - |record| - 1 > 0 then 4_000 - |record| - 1 else 0;
      var prefix := if |summary| <= room then summary else summary[..room];
      if prefix != [] then prefix + NEWLINE + record else if |record| <= 4_000 then record else record[..4_000]
  }

  /** `sameFindingIdentity`: the same findings, in any order. */
  predicate SameFindings(a: seq<Finding>, b: seq<Finding>) {
    multiset(a) == multiset(b)
  }

  function SubmittedFinal(s: Session, e: Event): Final
    requires e.Submit?
  {
    Final(e.params.status, if e.params.status.ReviewBlocked?
        then BlockedSummary(e.params.summary, s.failures, e.audit) else e.params.summary,
          e.params.findings)
  }

  /** Every check of a `pass` or `changes` submission, in the handler's order. */
  predicate DecisiveOk(c: Config, s: Session, e: Event)
    requires e.Submit?
  {
    && !s.exceeded && s.axesCompleted && BothAxes(s.results)
    && (e.params.status.Passes? ==> s.results[Standards].status.AxisPass? && s.results[Spec].status.AxisPass?)
    && e.readable
    && (e.params.status.Changes? ==>
         s.results[Standards].status.AxisChanges? || s.results[Spec].status.AxisChanges?
             || ValidationFindings(c.receipt) != [])
    && SameFindings(e.params.findings, Aggregate(s.results, c.receipt).findings)
    && s.preflight == Some(true)
    && (e.params.status.Passes? ==> c.receipt.Passed?)
    && s.final == Some(SubmittedFinal(s, e))
  }

  predicate FindingFits(f: Finding) {
    1 <= |f.summary| <= 1_000 && 1 <= |f.evidence| <= 4_000
  }

  /** The parameter schema of the tool. */
  predicate ParamsOk(f: Final) {
    1 <= |f.summary| <= 4_000 && |f.findings| <= 64 && forall i :: 0 <= i < |f.findings| ==> FindingFits(f.findings[i])
  }

  predicate SubmitAccepted(c: Config, s: Session, e: Event)
    requires e.Submit?
  {
    ParamsOk(e.params) && !s.submitted && (Decisive(e.params.status) ==> DecisiveOk(c, s, e))
  }

  /** What writing an accepted submission gets done: its checkpoint, unless a final is there, then the exclusive
    * link of the result file, and last the report that it is submitted. */
  predicate Stored(c: Config, s: Session, f: Final, e: Event)
    requires e.Submit?
  {
    s.final.Some? || Publishes(c, s, FinalPoint, FinalFits(f), e.disk)
  }

  predicate ResultLinked(c: Config, s: Session, f: Final, e: Event)
    requires e.Submit?
  {
    Stored(c, s, f, e) && s.resultFile.None? && e.resultLinked
  }

  function Written(c: Config, s: Session, f: Final, e: Event): Session
    requires e.Submit?
  {
    var linked := ResultLinked(c, s, f, e);
    var after := if s.final.None? then PublishFinal(c, s, f, e.disk) else s;
    after.(resultFile := if linked then Some(Submission(f, s.exceeded)) else s.resultFile,
           submitted := s.submitted || (linked && e.resultClean))
  }

  function StepSubmit(c: Config, s: Session, e: Event): Session
    requires e.Submit?
  {
    if !SubmitAccepted(c, s, e) then s
    else
      var f := SubmittedFinal(s, e);
      var written := Written(c, s, f, e);
      if ResultLinked(c, s, f, e) && e.resultClean then Respond(c, written, e.size, true) else written
  }

  // ----- the session as a whole -----

  function Step(c: Config, s: Session, e: Event): Session {
    match e
    case SubagentCall(_, _, _) => StepCall(c, s, e)
    case AxesReturn(id, _, _, _, size) => if id in s.calls then StepAxes(c, s, e) else StepGeneric(c, s, true, size)
    case GenericReturn(projected, size) => StepGeneric(c, s, projected, size)
    case Preflight(readable, disk, size) => StepPreflight(c, s, readable, disk, size)
    case Submit(_, _, _, _, _, _, _) => StepSubmit(c, s, e)
  }

  function Run(c: Config, events: seq<Event>): Session {
    if events == [] then Start(c) else Step(c, Run(c, events[..|events| - 1]), events[|events| - 1])
  }

  // ----- invariant -----

  predicate BudgetOk(c: Config, s: Session) {
    s.used <= c.budget
  }

  ghost predicate CountsOk(s: Session) {
    forall a: Axis :: Count(s, a) <= 2 && (a in s.retry ==> Count(s, a) == 1) && (a in s.briefs <==> Count(s, a) > 0)
  }

  ghost predicate LaunchOk(c: Config, s: Session) {
    && CountsOk(s)
    && (c.concurrency == 1 && Count(s, Spec) > 0 ==> Standards in s.results)
  }

  /** A returned axis is settled once: without checkpoints because its call is gone, with them because its path
    * is taken. */
  predicate TaskOk(c: Config, s: Session, t: Task) {
    && t.axis in s.briefs && s.briefs[t.axis] == t.brief
    && (t.axis in s.results ==> c.checkpointing && AxisPoint(t.axis) in s.published)
    && (!c.checkpointing ==> t.axis !in s.retry)
  }

  predicate TwoAxes(tasks: seq<Task>) {
    |tasks| <= 2 && (|tasks| == 2 ==> tasks[0].axis != tasks[1].axis)
  }

  predicate ShareAxis(xs: seq<Task>, ys: seq<Task>) {
    exists i, j :: 0 <= i < |xs| && 0 <= j < |ys| && xs[i].axis == ys[j].axis
  }

  ghost predicate CallsOk(c: Config, s: Session) {
    && (forall id :: id in s.calls ==> TwoAxes(s.calls[id]) && forall i ::
         0 <= i < |s.calls[id]| ==> TaskOk(c, s, s.calls[id][i]))
    && (!c.checkpointing ==> forall x, y ::
         x in s.calls && y in s.calls && x != y ==> !ShareAxis(s.calls[x], s.calls[y]))
  }

  predicate GateOk(c: Config, s: Session) {
    s.preflight != Some(true) ==> s.calls == map[] && s.results == c.reused && s.axesCompleted == BothAxes(c.reused)
  }

  predicate FinalOk(c: Config, s: Session) {
    && (s.axesCompleted ==> BothAxes(s.results))
    && (s.final.Some? && s.preflight == Some(true)
      ==> BothAxes(s.results) && s.final.value == Aggregate(s.results, c.receipt))
    && (s.preflight.None? ==> s.final == c.reusedFinal)
  }

  predicate SubmissionOk(c: Config, s: Session) {
    && (s.submitted ==> s.resultFile.Some?)
    && (s.resultFile.Some? ==> |s.resultFile.value.final.findings| <= 64)
    && (s.resultFile.Some? && Decisive(s.resultFile.value.final.status) ==>
         var x := s.resultFile.value;
         && !x.exceeded && s.preflight == Some(true) && BothAxes(s.results) && s.final == Some(x.final)
         && x.final == Aggregate(s.results, c.receipt))
  }

  /** Unless a final was reused, the aggregation is what the final checkpoint holds, or it is known to be lost. */
  predicate DurableOk(c: Config, s: Session) {
    && (s.finalFile.Some? <==> FinalPoint in s.published)
    && (c.checkpointing && c.reusedFinal.None? && s.final.Some? ==>
         Decisive(s.final.value.status) && if s.lost then s.finalFile != s.final else s.finalFile == s.final)
    && (s.final.None? && s.finalFile.Some? ==> !Decisive(s.finalFile.value.status))
    && (s.final.None? ==> !s.lost)
  }

  ghost predicate Inv(c: Config, s: Session) {
    DurableOk(c, s) && BudgetOk(c, s) && LaunchOk(c, s) && CallsOk(c, s) && GateOk(c, s) && FinalOk(c, s)
        && SubmissionOk(c, s)
  }

  predicate Grows<K(==), V(==)>(a: map<K, V>, b: map<K, V>) {
    forall k :: k in a ==> k in b && b[k] == a[k]
  }

  lemma StartKeepsInv(c: Config)
    requires ConfigOk(c)
    ensures Inv(c, Start(c))
  {
  }

  // ----- answering within the budget -----

  lemma RespondOk(c: Config, s: Session, size: Size, reserved: bool)
    requires BudgetOk(c, s)
    ensures var t := Respond(c, s, size, reserved);
      BudgetOk(c, t) && t.used >= s.used && (s.exceeded ==> t.exceeded)
      && t == s.(used := t.used, exceeded := t.exceeded)
  {
  }

  /** Answering changes only the budget, which no other part of the invariant reads except to forbid more. */
  lemma RespondKeepsInv(c: Config, s: Session, size: Size, reserved: bool)
    requires Inv(c, s)
    ensures Inv(c, Respond(c, s, size, reserved))
  {
    RespondOk(c, s, size, reserved);
    var t := Respond(c, s, size, reserved);
    assert LaunchOk(c, t) && CallsOk(c, t) by { assert forall a: Axis :: Count(t, a) == Count(s, a); }
    hide Respond, LaunchOk, CallsOk;
  }

  // ----- launching -----

  lemma LaunchAllIs(s: Session, tasks: seq<Task>)
    requires 1 <= |tasks| <= 2
    ensures LaunchAll(s, tasks) == if |tasks| == 1 then Launch(s, tasks[0]) else Launch(Launch(s, tasks[0]), tasks[1])
  {
    if |tasks| == 2 {
      assert tasks[1..][1..] == [] && tasks[1..][0] == tasks[1];
      assert LaunchAll(Launch(s, tasks[0]), tasks[1..]) == Launch(Launch(s, tasks[0]), tasks[1]);
    } else {
      assert tasks[1..] == [];
    }
  }

  /** What launching changes, and that it launches the task under its one brief. */
  predicate Launched(s: Session, u: Session, t: Task) {
    && u == s.(briefs := u.briefs, retry := u.retry, launches := u.launches)
    && t.axis in u.briefs && u.briefs[t.axis] == t.brief && t.axis !in u.retry
  }

  lemma LaunchOneOk(s: Session, t: Task)
    requires CountsOk(s) && MayLaunch(s, t)
    ensures var u := Launch(s, t);
      CountsOk(u) && Launched(s, u, t) && Grows(s.briefs, u.briefs) && u.retry <= s.retry
      && (forall x: Task :: x.axis != t.axis ==>
           (MayLaunch(u, x) <==> MayLaunch(s, x)) && Count(u, x.axis) == Count(s, x.axis))
  {
    var u := Launch(s, t);
    assert Count(u, t.axis) == Count(s, t.axis) + 1;
    forall a: Axis ensures Count(u, a) <= 2 && (a in u.retry ==> Count(u, a) == 1)
        && (a in u.briefs <==> Count(u, a) > 0) {
      assert a != t.axis ==> Count(u, a) == Count(s, a);
    }
  }

  lemma LaunchAllOk(s: Session, tasks: seq<Task>)
    requires CountsOk(s) && 1 <= |tasks| <= 2 && TwoAxes(tasks)
    requires forall i :: 0 <= i < |tasks| ==> MayLaunch(s, tasks[i])
    ensures var u := LaunchAll(s, tasks);
      CountsOk(u) && Grows(s.briefs, u.briefs) && u.retry <= s.retry
          && (forall i :: 0 <= i < |tasks| ==> Launched(s, u, tasks[i]))
      && forall x: Task :: (forall i :: 0 <= i < |tasks| ==> tasks[i].axis != x.axis)
           ==> Count(u, x.axis) == Count(s, x.axis)
  {
    LaunchAllIs(s, tasks);
    LaunchOneOk(s, tasks[0]);
    var mid := Launch(s, tasks[0]);
    if |tasks| == 2 {
      assert MayLaunch(s, tasks[1]);
      LaunchOneOk(mid, tasks[1]);
    }
    hide Launch, LaunchAll, Count, CountsOk, MayLaunch;
  }

  lemma CallIs(c: Config, s: Session, e: Event)
    requires e.SubagentCall? && CallAllowed(c, s, e) && CountsOk(s)
    ensures var t, u := StepCall(c, s, e), LaunchAll(s, e.tasks.value);
      && t == u.(calls := s.calls[e.id := e.tasks.value])
      && u == s.(briefs := u.briefs, retry := u.retry, launches := u.launches)
      && CountsOk(u) && Grows(s.briefs, u.briefs) && u.retry <= s.retry
  {
    var tasks := e.tasks.value;
    LaunchAllOk(s, tasks);
    assert Launched(s, LaunchAll(s, tasks), tasks[0]);
    hide LaunchAll, CountsOk, Count, Grows, MayLaunch;
  }

  lemma SpecWaits(c: Config, s: Session, e: Event)
    requires e.SubagentCall? && CallAllowed(c, s, e) && LaunchOk(c, s) && c.concurrency == 1
    requires Count(LaunchAll(s, e.tasks.value), Spec) > 0
    ensures Standards in s.results
  {
    var tasks := e.tasks.value;
    LaunchAllOk(s, tasks);
    hide LaunchAll, CountsOk, Grows, MayLaunch, Count;
    var x := Task(Spec, []);
    assert (forall i :: 0 <= i < |tasks| ==> tasks[i].axis != x.axis)
      ==> Count(LaunchAll(s, tasks), x.axis) == Count(s, x.axis);
  }

  lemma LaunchOnCounts(c: Config, s: Session, u: Session, t: Session)
    requires CountsOk(u) && t == u.(calls := t.calls) && u.results == s.results
    requires c.concurrency == 1 && Count(u, Spec) > 0 ==> Standards in s.results
    ensures LaunchOk(c, t)
  {
    assert forall a: Axis :: Count(t, a) == Count(u, a);
    hide Count;
  }

  lemma CallKeepsLaunchOk(c: Config, s: Session, e: Event)
    requires e.SubagentCall? && CallAllowed(c, s, e) && LaunchOk(c, s)
    ensures var t := StepCall(c, s, e);
      LaunchOk(c, t) && Grows(s.briefs, t.briefs) && t.retry <= s.retry
      && t == s.(briefs := t.briefs, retry := t.retry, launches := t.launches, calls := s.calls[e.id := e.tasks.value])
      && TwoAxes(e.tasks.value)
      && forall i :: 0 <= i < |e.tasks.value| ==>
           MayLaunch(s, e.tasks.value[i]) && Launched(s, t.(calls := s.calls), e.tasks.value[i])
  {
    var tasks := e.tasks.value;
    LaunchAllOk(s, tasks);
    CallIs(c, s, e);
    var t, u := StepCall(c, s, e), LaunchAll(s, tasks);
    if c.concurrency == 1 && Count(u, Spec) > 0 { SpecWaits(c, s, e); }
    assert TwoAxes(tasks) && forall i :: 0 <= i < |tasks| ==> MayLaunch(s, tasks[i]);
    hide LaunchAll, StepCall, CallAllowed, MayLaunch, Grows, Launched, TwoAxes;
    assert t.(calls := s.calls) == u;
    LaunchOnCounts(c, s, u, t);
  }

  lemma CallKeepsCallsOk(c: Config, s: Session, e: Event)
    requires e.SubagentCall? && CallAllowed(c, s, e) && LaunchOk(c, s) && CallsOk(c, s)
    ensures CallsOk(c, StepCall(c, s, e))
  {
    CallKeepsLaunchOk(c, s, e);
    var t, tasks := StepCall(c, s, e), e.tasks.value;
    assert forall a: Axis :: a in s.briefs <==> Count(s, a) > 0;
    hide StepCall, CallAllowed, LaunchOk;
    forall id, i | id in t.calls && 0 <= i < |t.calls[id]| ensures TwoAxes(t.calls[id])
        && TaskOk(c, t, t.calls[id][i]) {
      assert id != e.id ==> TaskOk(c, s, s.calls[id][i]);
    }
    if !c.checkpointing {
      forall x, y | x in t.calls && y in t.calls && x != y ensures !ShareAxis(t.calls[x], t.calls[y]) {
        if x != e.id && y != e.id {
          assert !ShareAxis(s.calls[x], s.calls[y]);
        } else {
          var running := if x == e.id then y else x;
          FreshAxes(c, s, tasks, s.calls[running]);
        }
      }
    }
  }

  /** Without checkpoints, a task that may be launched is for an axis no other call is running. */
  lemma FreshAxes(c: Config, s: Session, tasks: seq<Task>, running: seq<Task>)
    requires !c.checkpointing
    requires forall i :: 0 <= i < |tasks| ==> MayLaunch(s, tasks[i])
    requires forall i :: 0 <= i < |running| ==> TaskOk(c, s, running[i])
    requires forall a: Axis :: a in s.briefs <==> Count(s, a) > 0
    ensures !ShareAxis(tasks, running) && !ShareAxis(running, tasks)
  {
    forall i, j | 0 <= i < |tasks| && 0 <= j < |running| ensures tasks[i].axis != running[j].axis {
      assert MayLaunch(s, tasks[i]) && TaskOk(c, s, running[j]);
    }
  }

  lemma CallKeepsInv(c: Config, s: Session, e: Event)
    requires e.SubagentCall? && Inv(c, s)
    ensures Inv(c, StepCall(c, s, e))
  {
    if CallAllowed(c, s, e) {
      CallKeepsLaunchOk(c, s, e);
      CallKeepsCallsOk(c, s, e);
      hide StepCall, LaunchOk, CallsOk, CallAllowed;
    }
  }

  // ----- settling what an axis call returned -----

  predicate TaskKnown(c: Config, s: Session, t: Task) {
    && t.axis in s.briefs && s.briefs[t.axis] == t.brief
    && (t.axis in s.results ==> c.checkpointing && AxisPoint(t.axis) in s.published)
  }

  /** What settling leaves alone. */
  predicate SettleFrame(s: Session, t: Session) {
    && t == s.(failures := t.failures, retry := t.retry, results := t.results, published := t.published)
    && Grows(s.results, t.results) && s.published <= t.published
    && (forall a: Axis :: a in t.retry ==> a in s.retry || Count(s, a) == 1)
    && (FinalPoint in t.published ==> FinalPoint in s.published)
  }

  /** What settling one task promises, given which axis it is for. */
  predicate OneSettled(c: Config, s: Session, t: Task, one: Handled) {
    && SettleFrame(s, one.session)
    && (c.checkpointing ==> TaskKnown(c, one.session, t))
    && (one.threw ==> c.checkpointing)
    && (forall a: Axis :: a != t.axis ==>
         (a in one.session.results <==> a in s.results) && (a in one.session.retry <==> a in s.retry))
  }

  lemma UnusableSettled(c: Config, s: Session, t: Task, p: Projected, disk: Disk)
    requires TaskKnown(c, s, t) && p.Unusable?
    ensures OneSettled(c, s, t, SettleOne(c, s, t.axis, p, disk))
  {
  }

  lemma AxisLinkFacts(c: Config, s: Session, a: Axis, disk: Disk)
    ensures var links, ok := Links(c, s, AxisPoint(a), true, disk), Publishes(c, s, AxisPoint(a), true, disk);
      && (ok && c.checkpointing ==> links && AxisPoint(a) !in s.published)
      && (!ok ==> c.checkpointing)
  {
  }

  lemma UsableSettled(c: Config, s: Session, t: Task, p: Projected, disk: Disk)
    requires TaskKnown(c, s, t) && p.Usable?
    ensures OneSettled(c, s, t, SettleOne(c, s, t.axis, p, disk))
  {
    AxisLinkFacts(c, s, t.axis, disk);
    hide Links, Publishes, Count;
    var u := SettleOne(c, s, t.axis, p, disk).session;
    assert u.retry == s.retry && u.briefs == s.briefs;
    if u.results != s.results {
      assert Publishes(c, s, AxisPoint(t.axis), true, disk);
      assert t.axis !in s.results;
    }
    assert Grows(s.results, u.results);
  }

  lemma SettleOneOk(c: Config, s: Session, t: Task, p: Projected, disk: Disk)
    requires TaskKnown(c, s, t)
    ensures var one := SettleOne(c, s, t.axis, p, disk);
      SettleFrame(s, one.session) && (c.checkpointing ==> TaskKnown(c, one.session, t))
          && (one.threw ==> c.checkpointing)
      && (forall a: Axis :: a != t.axis ==>
           (a in one.session.results <==> a in s.results) && (a in one.session.retry <==> a in s.retry))
  {
    hide SettleOne, SettleFrame, TaskKnown;
    if p.Usable? { UsableSettled(c, s, t, p, disk); } else { UnusableSettled(c, s, t, p, disk); }
  }

  lemma TaskKnownGrows(c: Config, s: Session, t: Session, x: Task)
    requires TaskKnown(c, s, x) && SettleFrame(s, t) && (x.axis in t.results ==> x.axis in s.results)
    ensures TaskKnown(c, t, x)
  {
  }

  lemma SettleAllOne(c: Config, s: Session, tasks: seq<Task>, outcome: map<Axis, Projected>, disk: Disk)
    requires |tasks| == 1
    ensures SettleAll(c, s, tasks, outcome, disk) == SettleOne(c, s, tasks[0].axis,
        Returned(outcome, tasks[0].axis), disk)
  {
    assert tasks[1..] == [];
    hide SettleOne;
  }

  lemma SettleAllTwo(c: Config, s: Session, tasks: seq<Task>, outcome: map<Axis, Projected>, disk: Disk)
    requires |tasks| == 2
    ensures var one := SettleOne(c, s, tasks[0].axis, Returned(outcome, tasks[0].axis), disk);
      SettleAll(c, s, tasks, outcome, disk)
        == if one.threw then one else SettleOne(c, one.session, tasks[1].axis, Returned(outcome, tasks[1].axis), disk)
  {
    var one := SettleOne(c, s, tasks[0].axis, Returned(outcome, tasks[0].axis), disk);
    SettleAllOne(c, one.session, tasks[1..], outcome, disk);
    hide SettleOne;
  }

  lemma FramesCompose(s: Session, t: Session, u: Session)
    requires SettleFrame(s, t) && SettleFrame(t, u)
    ensures SettleFrame(s, u)
  {
    assert forall a: Axis :: Count(t, a) == Count(s, a);
  }

  /** What settling the tasks of a call leaves: with checkpoints each of them known, and every other axis as it was. */
  ghost predicate SettledAll(c: Config, s: Session, tasks: seq<Task>, all: Handled) {
    && SettleFrame(s, all.session) && (all.threw ==> c.checkpointing)
    && (c.checkpointing ==> forall i :: 0 <= i < |tasks| ==> TaskKnown(c, all.session, tasks[i]))
    && (forall a: Axis :: (forall i :: 0 <= i < |tasks| ==> tasks[i].axis != a) ==>
         (a in all.session.results <==> a in s.results) && (a in all.session.retry <==> a in s.retry))
  }

  lemma SettleTwoOk(c: Config, s: Session, tasks: seq<Task>, outcome: map<Axis, Projected>, disk: Disk)
    requires |tasks| == 2 && TwoAxes(tasks) && TaskKnown(c, s, tasks[0]) && TaskKnown(c, s, tasks[1])
    ensures SettledAll(c, s, tasks, SettleAll(c, s, tasks, outcome, disk))
  {
    SettleAllTwo(c, s, tasks, outcome, disk);
    var t, u := tasks[0], tasks[1];
    var one := SettleOne(c, s, t.axis, Returned(outcome, t.axis), disk);
    SettleOneOk(c, s, t, Returned(outcome, t.axis), disk);
    TaskKnownGrows(c, s, one.session, u);
    hide SettleOne, TaskKnown, SettleAll, SettleFrame;
    if !one.threw {
      SettleOneOk(c, one.session, u, Returned(outcome, u.axis), disk);
      var two := SettleOne(c, one.session, u.axis, Returned(outcome, u.axis), disk);
      if c.checkpointing { TaskKnownGrows(c, one.session, two.session, t); }
      FramesCompose(s, one.session, two.session);
    }
  }

  lemma SettleAllOk(c: Config, s: Session, tasks: seq<Task>, outcome: map<Axis, Projected>, disk: Disk)
    requires TwoAxes(tasks) && forall i :: 0 <= i < |tasks| ==> TaskKnown(c, s, tasks[i])
    ensures SettledAll(c, s, tasks, SettleAll(c, s, tasks, outcome, disk))
  {
    if |tasks| == 1 {
      SettleAllOne(c, s, tasks, outcome, disk);
      SettleOneOk(c, s, tasks[0], Returned(outcome, tasks[0].axis), disk);
      hide SettleOne, TaskKnown, SettleAll, SettleFrame;
    } else if |tasks| == 2 {
      SettleTwoOk(c, s, tasks, outcome, disk);
      hide *;
    }
  }

  /** An axis result, once there, is never replaced: without checkpoints its call is gone, with them its path is
    * taken. */
  lemma SettleKeepsOthers(c: Config, s: Session, t: Session, tasks: seq<Task>, other: seq<Task>)
    requires SettleFrame(s, t)
    requires forall i :: 0 <= i < |other| ==> TaskOk(c, s, other[i])
    requires c.checkpointing ==> forall i :: 0 <= i < |tasks| ==> TaskKnown(c, t, tasks[i])
    requires forall a: Axis :: (forall i :: 0 <= i < |tasks| ==> tasks[i].axis != a) ==>
      (a in t.results <==> a in s.results) && (a in t.retry <==> a in s.retry)
    requires !c.checkpointing ==> !ShareAxis(tasks, other)
    ensures forall i :: 0 <= i < |other| ==> TaskOk(c, t, other[i])
  {
    forall i | 0 <= i < |other| ensures TaskOk(c, t, other[i]) {
      assert TaskOk(c, s, other[i]);
      if k :| 0 <= k < |tasks| && tasks[k].axis == other[i].axis {
        assert ShareAxis(tasks, other);
      }
    }
  }

  // ----- settling, aggregating and answering -----

  lemma SameAggregate(a: map<Axis, AxisResult>, b: map<Axis, AxisResult>, r: Receipt)
    requires Grows(a, b) && BothAxes(a)
    ensures BothAxes(b) && Aggregate(b, r) == Aggregate(a, r)
  {
  }

  /** The parts of the invariant about the outcome survive any growth of the axis results. */
  lemma OutcomeGrows(c: Config, s: Session, t: Session)
    requires GateOk(c, s)
      && FinalOk(c, s)
      && SubmissionOk(c, s)
      && DurableOk(c, s)
      && s.preflight == Some(true)
    requires t == s.(failures := t.failures, retry := t.retry, results := t.results, published := t.published)
    requires Grows(s.results, t.results) && (FinalPoint in t.published <==> FinalPoint in s.published)
    ensures GateOk(c, t) && FinalOk(c, t) && SubmissionOk(c, t) && DurableOk(c, t)
  {
    if BothAxes(s.results) { SameAggregate(s.results, t.results, c.receipt); }
    hide Aggregate;
  }

  lemma RetiredCallsOk(c: Config, s: Session, t: Session, id: CallId)
    requires CallsOk(c, s)
    requires forall x :: x in s.calls && x != id ==> forall i :: 0 <= i < |s.calls[x]| ==> TaskOk(c, t, s.calls[x][i])
    ensures forall completed :: CallsOk(c, t.(calls := s.calls - {id}, axesCompleted := completed))
  {
    forall completed ensures CallsOk(c, t.(calls := s.calls - {id}, axesCompleted := completed)) {
      var u := t.(calls := s.calls - {id}, axesCompleted := completed);
      forall x, i | x in u.calls && 0 <= i < |u.calls[x]| ensures TaskOk(c, u, u.calls[x][i]) {
        assert TaskOk(c, t, s.calls[x][i]);
      }
    }
  }

  lemma SettledCallsOk(c: Config, s: Session, id: CallId, outcome: map<Axis, Projected>, disk: Disk)
    requires CallsOk(c, s) && id in s.calls
    ensures var all := SettleAll(c, s, s.calls[id], outcome, disk);
      SettleFrame(s, all.session) && (all.threw ==> c.checkpointing && CallsOk(c, all.session))
      && forall completed :: CallsOk(c, all.session.(calls := s.calls - {id}, axesCompleted := completed))
  {
    var tasks := s.calls[id];
    forall i | 0 <= i < |tasks| ensures TaskKnown(c, s, tasks[i]) { assert TaskOk(c, s, tasks[i]); }
    SettleAllOk(c, s, tasks, outcome, disk);
    var t := SettleAll(c, s, tasks, outcome, disk).session;
    forall x | x in s.calls && x != id ensures forall i :: 0 <= i < |s.calls[x]| ==> TaskOk(c, t, s.calls[x][i]) {
      SettleKeepsOthers(c, s, t, tasks, s.calls[x]);
    }
    hide SettleAll, SettleFrame;
    RetiredCallsOk(c, s, t, id);
    hide TaskOk;
    if SettleAll(c, s, tasks, outcome, disk).threw {
      forall x, i | x in s.calls && 0 <= i < |s.calls[x]| ensures TaskOk(c, t, s.calls[x][i]) {
        assert x == id ==> TaskKnown(c, t, tasks[i]);
      }
      assert t.calls == s.calls by { SettleAllOk(c, s, tasks, outcome, disk); FrameCalls(s, t); }
    }
  }

  lemma FrameCalls(s: Session, t: Session)
    requires SettleFrame(s, t)
    ensures t.calls == s.calls
  {
  }

  lemma SettledLaunchOk(c: Config, s: Session, t: Session)
    requires LaunchOk(c, s) && SettleFrame(s, t)
    ensures LaunchOk(c, t)
  {
    assert forall a: Axis :: Count(t, a) == Count(s, a);
  }

  lemma FinalizeShape(c: Config, s: Session, disk: Disk)
    ensures var t := Finalize(c, s, disk).session;
      t == s.(final := t.final, published := t.published, finalFile := t.finalFile, lost := t.lost)
          && s.published <= t.published
  {
    hide Aggregate, FinalFits, Links, Publishes;
    if FinalDue(s) {
      var t, held := Finalize(c, s, disk).session, PublishFinal(c, s, Aggregate(s.results, c.receipt), disk);
      assert t == held.(final := t.final, lost := t.lost) by { hide PublishFinal; }
      hide Finalize;
    }
  }

  lemma FinalizeKeepsInv(c: Config, s: Session, disk: Disk)
    requires Inv(c, s)
    ensures Inv(c, Finalize(c, s, disk).session)
  {
    var t := Finalize(c, s, disk).session;
    FinalizeShape(c, s, disk);
    assert LaunchOk(c, t) && CallsOk(c, t) by {
      hide Finalize;
      assert forall a: Axis :: Count(t, a) == Count(s, a);
      forall id, i | id in t.calls && 0 <= i < |t.calls[id]| ensures TaskOk(c, t,
          t.calls[id][i]) { assert TaskOk(c, s, s.calls[id][i]); }
    }
    hide LaunchOk, CallsOk, FinalFits;
  }

  lemma UncapturedCallsOk(c: Config, s: Session, id: CallId)
    requires CallsOk(c, s)
    ensures forall completed :: CallsOk(c, s.(calls := s.calls - {id}, axesCompleted := completed))
  {
    forall completed ensures CallsOk(c, s.(calls := s.calls - {id}, axesCompleted := completed)) {
      var u := s.(calls := s.calls - {id}, axesCompleted := completed);
      forall x, i | x in u.calls && 0 <= i < |u.calls[x]| ensures TaskOk(c, u,
          u.calls[x][i]) { assert TaskOk(c, s, s.calls[x][i]); }
    }
  }

  lemma CountsOnly(c: Config, s: Session, t: Session)
    requires LaunchOk(c, s) && t == s.(calls := t.calls, axesCompleted := t.axesCompleted)
    ensures LaunchOk(c, t)
  {
    assert forall a: Axis :: Count(t, a) == Count(s, a);
  }

  /** Withdrawing completion, as a handler does when its answer overran the budget. */
  lemma DroppingCompletion(c: Config, s: Session)
    requires Inv(c, s) && s.preflight == Some(true)
    ensures Inv(c, s.(axesCompleted := false))
  {
    var t := s.(axesCompleted := false);
    CountsOnly(c, s, t);
    assert CallsOk(c, t) by {
      forall x, i | x in t.calls && 0 <= i < |t.calls[x]| ensures TaskOk(c, t,
          t.calls[x][i]) { assert TaskOk(c, s, s.calls[x][i]); }
    }
    hide LaunchOk, CallsOk, Aggregate;
  }

  lemma SettleCallOk(c: Config, s: Session, e: Event)
    requires e.AxesReturn? && e.id in s.calls && Inv(c, s)
    ensures var all := SettleCall(c, s, e);
      all.session.calls == s.calls && all.session.preflight == Some(true) && LaunchOk(c, all.session)
          && BudgetOk(c, all.session)
      && GateOk(c, all.session)
      && FinalOk(c, all.session)
      && SubmissionOk(c, all.session)
      && DurableOk(c, all.session)
      && (all.threw ==> CallsOk(c, all.session)) && CallsOk(c, Retire(all.session, e.id))
  {
    assert s.preflight == Some(true);
    SettledCallsOk(c, s, e.id, e.outcome, e.disk);
    UncapturedCallsOk(c, s, e.id);
    if e.captured {
      var t := SettleCall(c, s, e).session;
      FrameCalls(s, t);
      SettledLaunchOk(c, s, t);
      assert FinalPoint in t.published <==> FinalPoint in s.published;
      hide LaunchOk, CallsOk, SettleAll;
      OutcomeGrows(c, s, t);
    } else {
      hide LaunchOk, CallsOk, SettleAll, Aggregate;
    }
  }

  lemma RetireKeepsInv(c: Config, s: Session, id: CallId)
    requires LaunchOk(c, s)
      && BudgetOk(c, s)
      && GateOk(c, s)
      && FinalOk(c, s)
      && SubmissionOk(c, s)
      && DurableOk(c, s)
    requires s.preflight == Some(true) && CallsOk(c, Retire(s, id))
    ensures Inv(c, Retire(s, id))
  {
    CountsOnly(c, s, Retire(s, id));
    hide LaunchOk, CallsOk, Aggregate;
  }

  lemma AnswerKeepsInv(c: Config, s: Session, size: Size)
    requires Inv(c, s) && s.preflight == Some(true)
    ensures Inv(c, Answer(c, s, size))
  {
    RespondKeepsInv(c, s, size, false);
    RespondOk(c, s, size, false);
    var answered := Respond(c, s, size, false);
    hide Inv, Respond;
    if answered.exceeded { DroppingCompletion(c, answered); }
  }

  lemma FinalizeFrame(c: Config, s: Session, disk: Disk)
    ensures var t := Finalize(c, s, disk).session;
      t.calls == s.calls && t.results == s.results && t.axesCompleted == s.axesCompleted && t.resultFile == s.resultFile
      && t.preflight == s.preflight
  {
  }

  lemma FinishKeepsInv(c: Config, done: Session, disk: Disk, size: Size)
    requires Inv(c, done) && done.preflight == Some(true)
    ensures Inv(c, Finalize(c, done, disk).session)
      && Inv(c, Answer(c, Finalize(c, done, disk).session, size))
  {
    FinalizeKeepsInv(c, done, disk);
    FinalizeFrame(c, done, disk);
    hide Inv, Finalize, Answer;
    AnswerKeepsInv(c, Finalize(c, done, disk).session, size);
  }

  lemma AxesKeepInv(c: Config, s: Session, e: Event)
    requires e.AxesReturn? && e.id in s.calls && Inv(c, s)
    ensures Inv(c, StepAxes(c, s, e))
  {
    SettleCallOk(c, s, e);
    var all := SettleCall(c, s, e);
    hide LaunchOk, CallsOk, SettleCall, Aggregate, GateOk, FinalOk, SubmissionOk, DurableOk, BudgetOk, Finalize, Answer;
    if !all.threw {
      var done := Retire(all.session, e.id);
      RetireKeepsInv(c, all.session, e.id);
      assert done.preflight == Some(true);
      hide Inv, Retire;
      FinishKeepsInv(c, done, e.disk, e.size);
    }
  }

  lemma GenericKeepsInv(c: Config, s: Session, projected: bool, size: Size)
    requires Inv(c, s)
    ensures Inv(c, StepGeneric(c, s, projected, size))
  {
    if projected {
      RespondKeepsInv(c, s, size, false);
    } else {
      var t := s.(exceeded := true);
      assert LaunchOk(c, t) && CallsOk(c, t) by {
        assert forall a: Axis :: Count(t, a) == Count(s, a);
        forall x, i | x in t.calls && 0 <= i < |t.calls[x]| ensures TaskOk(c, t,
            t.calls[x][i]) { assert TaskOk(c, s, s.calls[x][i]); }
      }
      RespondKeepsInv(c, t, size, true);
    }
    hide Respond, LaunchOk, CallsOk, Aggregate;
  }

  // ----- preflight and submission -----

  lemma CheckedFrame(c: Config, s: Session, readable: bool, disk: Disk)
    ensures var t := Checked(c, s, readable, disk);
      t == s.(published := t.published) && s.published <= t.published
      && (FinalPoint in t.published <==> FinalPoint in s.published)
  {
    hide Links;
  }

  lemma CheckedKeepsInv(c: Config, s: Session, readable: bool, disk: Disk)
    requires Inv(c, s)
    ensures Inv(c, Checked(c, s, readable, disk))
  {
    CheckedFrame(c, s, readable, disk);
    hide Checked;
    var t := Checked(c, s, readable, disk);
    assert LaunchOk(c, t) && CallsOk(c, t) by {
      assert forall a: Axis :: Count(t, a) == Count(s, a);
      forall x, i | x in t.calls && 0 <= i < |t.calls[x]| ensures TaskOk(c, t, t.calls[x][i]) {
        assert TaskOk(c, s, s.calls[x][i]);
      }
    }
    hide Aggregate, LaunchOk, CallsOk;
  }

  lemma VerdictKeepsInv(c: Config, s: Session, verdict: bool)
    requires Inv(c, s) && s.preflight.None?
    requires verdict && s.final.Some? ==> BothAxes(s.results) && s.final.value == Aggregate(s.results, c.receipt)
    ensures Inv(c, s.(preflight := Some(verdict)))
  {
    var t := s.(preflight := Some(verdict));
    assert LaunchOk(c, t) && CallsOk(c, t) by {
      assert forall a: Axis :: Count(t, a) == Count(s, a);
      assert t.calls == map[];
    }
    hide Aggregate, LaunchOk, CallsOk;
  }

  lemma FailPreflight(c: Config, s: Session)
    requires Inv(c, s)
      && s.calls == map[]
      && s.results == c.reused
      && s.axesCompleted == BothAxes(c.reused)
    requires s.resultFile.Some? ==> !Decisive(s.resultFile.value.final.status)
    ensures Inv(c, s.(preflight := Some(false)))
  {
    var t := s.(preflight := Some(false));
    assert forall a: Axis :: Count(t, a) == Count(s, a);
    hide Aggregate;
  }

  /** Before the first preflight nothing has run: the session still holds exactly what was reused. */
  predicate Untouched(c: Config, s: Session) {
    s.preflight.None? && s.final == c.reusedFinal && s.axesCompleted == BothAxes(c.reused) && s.results == c.reused
        && s.calls == map[]
    && (s.resultFile.Some? ==> !Decisive(s.resultFile.value.final.status))
  }

  lemma BeforePreflight(c: Config, s: Session)
    requires Inv(c, s) && s.preflight.None?
    ensures Untouched(c, s)
  {
  }

  lemma ReadyKeepsInv(c: Config, s: Session, disk: Disk)
    requires Inv(c, s) && Untouched(c, s)
    requires s.final.Some? ==> BothAxes(s.results) && s.final.value == Aggregate(s.results, c.receipt)
    ensures Inv(c, s.(preflight := Some(true)))
    ensures var final := Finalize(c, s.(preflight := Some(true)), disk);
      Inv(c, final.session.(preflight := Some(!final.threw)))
  {
    VerdictKeepsInv(c, s, true);
    var ready := s.(preflight := Some(true));
    FinalizeKeepsInv(c, ready, disk);
    FinalizeFrame(c, ready, disk);
    hide Inv, Finalize, Aggregate;
    var final := Finalize(c, ready, disk);
    if final.threw {
      FailPreflight(c, final.session);
    } else {
      assert final.session.(preflight := Some(true)) == final.session;
    }
  }

  lemma PreflightVerdict(c: Config, s: Session, readable: bool, disk: Disk)
    requires ConfigOk(c) && Inv(c, s) && s.preflight.None?
    ensures Inv(c, AfterPreflight(c, s, readable, disk))
  {
    BeforePreflight(c, s);
    CheckedKeepsInv(c, s, readable, disk);
    CheckedFrame(c, s, readable, disk);
    hide Inv, Aggregate, Finalize, Checked, PreflightChecks;
    var checked := Checked(c, s, readable, disk);
    assert Untouched(c, checked);
    if PreflightChecks(c, s, readable, disk) {
      if !Complete(s) {
        VerdictKeepsInv(c, checked, true);
      } else if Contradicted(c, s) {
        FailPreflight(c, checked);
      } else {
        ReadyKeepsInv(c, checked, disk);
      }
    } else {
      FailPreflight(c, checked);
    }
  }

  lemma PreflightKeepsInv(c: Config, s: Session, readable: bool, disk: Disk, size: Size)
    requires ConfigOk(c) && Inv(c, s)
    ensures Inv(c, StepPreflight(c, s, readable, disk, size))
  {
    if s.preflight.Some? {
      RespondKeepsInv(c, s, size, false);
    } else {
      var after := AfterPreflight(c, s, readable, disk);
      PreflightVerdict(c, s, readable, disk);
      RespondKeepsInv(c, after, size, false);
      hide Inv, Respond, AfterPreflight;
    }
  }

  lemma SubmitRecords(c: Config, s: Session, f: Final)
    requires Inv(c, s) && s.resultFile.None? && !s.submitted && |f.findings| <= 64
    requires Decisive(f.status) ==>
      !s.exceeded && s.preflight == Some(true) && BothAxes(s.results) && s.final == Some(f)
    ensures Inv(c, s.(resultFile := Some(Submission(f, s.exceeded)), submitted := true))
    ensures Inv(c, s.(resultFile := Some(Submission(f, s.exceeded))))
  {
    var t := s.(resultFile := Some(Submission(f, s.exceeded)));
    var u := t.(submitted := true);
    assert LaunchOk(c, t) && CallsOk(c, t) && LaunchOk(c, u) && CallsOk(c, u) by {
      assert forall a: Axis :: Count(t, a) == Count(s, a) == Count(u, a);
      forall x, i | x in s.calls && 0 <= i < |s.calls[x]| ensures TaskOk(c, t, s.calls[x][i])
          && TaskOk(c, u, s.calls[x][i]) {
        assert TaskOk(c, s, s.calls[x][i]);
      }
    }
    hide Aggregate, LaunchOk, CallsOk;
  }

  lemma PublishFinalKeepsInv(c: Config, s: Session, f: Final, disk: Disk)
    requires Inv(c, s) && s.final.None? && !Decisive(f.status)
    ensures Inv(c, PublishFinal(c, s, f, disk))
  {
    var t := PublishFinal(c, s, f, disk);
    assert LaunchOk(c, t) && CallsOk(c, t) by {
      assert forall a: Axis :: Count(t, a) == Count(s, a);
      forall x, i | x in t.calls && 0 <= i < |t.calls[x]| ensures TaskOk(c, t,
          t.calls[x][i]) { assert TaskOk(c, s, s.calls[x][i]); }
    }
    hide Aggregate, LaunchOk, CallsOk, FinalFits;
  }

  lemma PublishFinalFrame(c: Config, s: Session, f: Final, disk: Disk)
    ensures var t := PublishFinal(c, s, f, disk);
      t == s.(published := t.published, finalFile := t.finalFile) && s.published <= t.published
  {
    hide FinalFits, Links;
  }

  lemma WrittenKeepsInv(c: Config, s: Session, f: Final, e: Event)
    requires e.Submit? && Inv(c, s) && !s.submitted && |f.findings| <= 64
    requires Decisive(f.status) ==>
      !s.exceeded && s.preflight == Some(true) && BothAxes(s.results) && s.final == Some(f)
    ensures Inv(c, Written(c, s, f, e))
  {
    var after := if s.final.None? then PublishFinal(c, s, f, e.disk) else s;
    if s.final.None? { PublishFinalKeepsInv(c, s, f, e.disk); }
    PublishFinalFrame(c, s, f, e.disk);
    hide Inv, PublishFinal, Stored;
    if ResultLinked(c, s, f, e) {
      SubmitRecords(c, after, f);
    } else {
      assert Written(c, s, f, e) == after;
    }
  }

  lemma AcceptedFinal(c: Config, s: Session, e: Event)
    requires e.Submit? && SubmitAccepted(c, s, e)
    ensures var f := SubmittedFinal(s, e);
      !s.submitted && |f.findings| <= 64
      && (Decisive(f.status) ==> !s.exceeded && s.preflight == Some(true) && BothAxes(s.results) && s.final == Some(f))
  {
    hide Aggregate, SameFindings, BlockedSummary;
  }

  lemma SubmitKeepsInv(c: Config, s: Session, e: Event)
    requires e.Submit? && Inv(c, s)
    ensures Inv(c, StepSubmit(c, s, e))
  {
    var f := SubmittedFinal(s, e);
    if SubmitAccepted(c, s, e) {
      AcceptedFinal(c, s, e);
      hide Inv, SubmitAccepted, SubmittedFinal, Written, ResultLinked, Respond;
      WrittenKeepsInv(c, s, f, e);
      RespondKeepsInv(c, Written(c, s, f, e), e.size, true);
    } else {
      hide Inv, SubmitAccepted, SubmittedFinal;
    }
  }

  lemma StepKeepsInv(c: Config, s: Session, e: Event)
    requires ConfigOk(c) && Inv(c, s)
    ensures Inv(c, Step(c, s, e))
  {
    match e
    case SubagentCall(_, _, _) => CallKeepsInv(c, s, e);
    case AxesReturn(id, _, _, _, size) => if id in s.calls { AxesKeepInv(c, s, e); }
        else { GenericKeepsInv(c, s, true, size); }
    case GenericReturn(projected, size) => GenericKeepsInv(c, s, projected, size);
    case Preflight(readable, disk, size) => PreflightKeepsInv(c, s, readable, disk, size);
    case Submit(_, _, _, _, _, _, _) => SubmitKeepsInv(c, s, e);
    hide Inv, StepCall, StepAxes, StepGeneric, StepPreflight, StepSubmit;
  }

  lemma {:induction false} RunKeepsInv(c: Config, events: seq<Event>)
    requires ConfigOk(c)
    ensures Inv(c, Run(c, events))
  {
    if events == [] {
      StartKeepsInv(c);
    } else {
      RunKeepsInv(c, events[..|events| - 1]);
      hide Inv, Step, ConfigOk;
      StepKeepsInv(c, Run(c, events[..|events| - 1]), events[|events| - 1]);
    }
  }

  // ----- what an aggregation holds -----

  /** From `at` on, the findings are an axis's in order, with its severities and summaries and its references joined. */
  predicate Repeats(fs: seq<Finding>, at: nat, xs: seq<AxisFinding>) {
    at + |xs| <= |fs| && forall i :: 0 <= i < |xs| ==>
      && fs[at + i].severity == xs[i].severity && fs[at + i].summary == xs[i].summary
      && fs[at + i].evidence == Join(xs[i].refs)
  }

  /** The findings of both axes and of a failed validation. */
  function FindingCount(results: map<Axis, AxisResult>, receipt: Receipt): nat
    requires BothAxes(results)
  {
    |results[Standards].findings| + |results[Spec].findings| + (if receipt.FailedChecks? then 1 else 0)
  }

  /** A result that keeps everything the axes and the validation found and nothing else: Standards' findings, then
    * Spec's, then the receipt's; and that passes exactly when there is nothing to find. */
  predicate Faithful(results: map<Axis, AxisResult>, receipt: Receipt, f: Final)
    requires BothAxes(results)
  {
    var xs, ys := results[Standards].findings, results[Spec].findings;
    && |f.findings| == FindingCount(results, receipt)
    && Repeats(f.findings, 0, xs) && Repeats(f.findings, |xs|, ys)
    && (receipt.FailedChecks? ==> f.findings[|xs| + |ys|] == receipt.finding)
    && (f.status == if results[Standards].status.AxisPass? && results[Spec].status.AxisPass? && xs == [] && ys == []
          && receipt.Passed? then Passes else Changes)
    && f.summary ==
       if f.status.Passes? then Ascii("Standards and Spec passed; ") + Ascii("deterministic validation passed.")
       else Ascii("Reviewer aggregation produced ") + Decimal(|f.findings|) + Ascii(" actionable finding")
            + (if |f.findings| == 1 then [] else Ascii("s")) + Ascii(".")
  }

  /** What a text of decimal digits stands for. */
  ghost function ValueOf(t: Text): int {
    if t == [] then 0 else 10 * ValueOf(t[..|t| - 1]) + t[|t| - 1] - '0' as int
  }

  lemma ReadsOn(front: Text, last: CodeUnit)
    ensures ValueOf(front + [last]) == 10 * ValueOf(front) + last - '0' as int
  {
    assert (front + [last])[..|front|] == front;
  }

  /** The number of findings is written in decimal, without leading zeros. */
  lemma {:induction false} DecimalReadsBack(n: nat)
    ensures var t := Decimal(n);
      && ValueOf(t) == n && |t| > 0 && (forall i :: 0 <= i < |t| ==> '0' as int <= t[i] <= '9' as int)
      && (n > 0 ==> t[0] != '0' as int)
  {
    var front, last := if n < 10 then [] else Decimal(n / 10), 0x30 + n % 10;
    assert Decimal(n) == front + [last];
    if n >= 10 { DecimalReadsBack(n / 10); }
    hide Decimal;
    ReadsOn(front, last);
  }

  lemma FindingsRepeat(xs: seq<AxisFinding>, ys: seq<AxisFinding>, zs: seq<Finding>)
    ensures var fs := SubmittedFindings(xs) + SubmittedFindings(ys) + zs;
      && |fs| == |xs| + |ys| + |zs| && Repeats(fs, 0, xs) && Repeats(fs, |xs|, ys)
      && (zs != [] ==> fs[|xs| + |ys|] == zs[0])
  {
    hide Join;
    var fs, b := SubmittedFindings(xs) + SubmittedFindings(ys) + zs, SubmittedFindings(ys);
    assert forall i :: 0 <= i < |ys| ==> fs[|xs| + i] == b[i];
  }

  lemma AggregateIsFaithful(results: map<Axis, AxisResult>, receipt: Receipt)
    requires BothAxes(results)
    ensures Faithful(results, receipt, Aggregate(results, receipt))
  {
    hide Join, Ascii, Decimal;
    FindingsRepeat(results[Standards].findings, results[Spec].findings, ValidationFindings(receipt));
    hide SubmittedFindings, Repeats;
  }

  // ----- guarantees over every sequence of tool events -----

  /** A `pass` or `changes` on disk is the aggregation of both axes and the receipt, and holds exactly their
    * findings; it is a `pass` exactly when both axes pass, nothing was found and the receipt passed; and it was
    * written in a ready environment with a budget not overrun. */
  lemma SubmittedResultIsEarned(c: Config, events: seq<Event>)
    requires ConfigOk(c)
      && Run(c, events).resultFile.Some?
      && Decisive(Run(c, events).resultFile.value.final.status)
    ensures var s := Run(c, events);
      var x := s.resultFile.value;
      && !x.exceeded
      && s.preflight == Some(true)
      && BothAxes(s.results)
      && x.final == Aggregate(s.results, c.receipt)
      && Faithful(s.results, c.receipt, x.final)
      && (x.final.status.Passes? ==>
           s.results[Standards].status.AxisPass? && s.results[Spec].status.AxisPass? && c.receipt.Passed?
               && x.final.findings == [])
  {
    RunKeepsInv(c, events);
    hide Aggregate, Faithful;
    AggregateIsFaithful(Run(c, events).results, c.receipt);
    hide Run;
    if Run(c, events).resultFile.value.final.status.Passes? {
      PassIsClean(Run(c, events).results, c.receipt, Run(c, events).resultFile.value.final);
    }
  }

  lemma PassIsClean(results: map<Axis, AxisResult>, receipt: Receipt, f: Final)
    requires BothAxes(results) && Faithful(results, receipt, f) && f.status.Passes?
    ensures results[Standards].status.AxisPass? && results[Spec].status.AxisPass? && receipt.Passed? && f.findings == []
  {
  }

  /** No axis is launched more than twice, every call runs an axis under its one brief, and with concurrency 1 Spec
    * is not launched before Standards has a result. */
  lemma LaunchesAreBounded(c: Config, events: seq<Event>, a: Axis)
    requires ConfigOk(c)
    ensures var s := Run(c, events);
      && Count(s, a) <= 2
      && (forall id, i ::
           id in s.calls && 0 <= i < |s.calls[id]| && s.calls[id][i].axis == a ==>
             a in s.briefs && s.calls[id][i].brief == s.briefs[a])
      && (c.concurrency == 1 && Count(s, Spec) > 0 ==> Standards in s.results)
  {
    RunKeepsInv(c, events);
    var s := Run(c, events);
    forall id, i | id in s.calls && 0 <= i < |s.calls[id]| ensures TaskOk(c, s, s.calls[id][i]) {}
  }

  /** The accounted bytes never exceed the budget. */
  lemma BudgetIsKept(c: Config, events: seq<Event>)
    requires ConfigOk(c)
    ensures Run(c, events).used <= c.budget
  {
    RunKeepsInv(c, events);
  }

  // ----- what never changes back -----

  predicate Monotone(s: Session, t: Session) {
    && (s.exceeded ==> t.exceeded) && s.used <= t.used
    && (s.resultFile.Some? ==> t.resultFile == s.resultFile) && (s.submitted ==> t.submitted)
    && (s.preflight.Some? ==> t.preflight == s.preflight) && (s.final.Some? ==> t.final == s.final)
    && Grows(s.results, t.results) && Grows(s.briefs, t.briefs) && s.published <= t.published
  }

  /** Monotone, and nothing is submitted. */
  predicate Advances(s: Session, t: Session) {
    Monotone(s, t) && t.resultFile == s.resultFile && t.submitted == s.submitted
  }

  lemma AdvancesTwice(s: Session, t: Session, u: Session)
    requires Advances(s, t) && Advances(t, u)
    ensures Advances(s, u)
  {
  }

  lemma RespondAdvances(c: Config, s: Session, size: Size, reserved: bool)
    requires BudgetOk(c, s)
    ensures Advances(s, Respond(c, s, size, reserved)) && BudgetOk(c, Respond(c, s, size, reserved))
  {
    RespondOk(c, s, size, reserved);
    hide Respond;
  }

  lemma CallAdvances(c: Config, s: Session, e: Event)
    requires e.SubagentCall? && Inv(c, s)
    ensures Advances(s, StepCall(c, s, e))
  {
    if CallAllowed(c, s, e) {
      CallKeepsLaunchOk(c, s, e);
      hide StepCall, LaunchOk, CallAllowed, Inv, Launched;
    }
  }

  lemma FinalizeAdvances(c: Config, s: Session, disk: Disk)
    ensures Advances(s, Finalize(c, s, disk).session) && Finalize(c, s, disk).session.used == s.used
  {
    hide Aggregate, FinalFits;
  }

  lemma SettleAdvances(c: Config, s: Session, e: Event)
    requires e.AxesReturn? && e.id in s.calls && Inv(c, s)
    ensures Advances(s, SettleCall(c, s, e).session) && SettleCall(c, s, e).session.used == s.used
  {
    SettledCallsOk(c, s, e.id, e.outcome, e.disk);
    hide SettleAll, Inv, CallsOk;
  }

  lemma AxesAdvance(c: Config, s: Session, e: Event)
    requires e.AxesReturn? && e.id in s.calls && Inv(c, s)
    ensures Advances(s, StepAxes(c, s, e))
  {
    SettleAdvances(c, s, e);
    var all := SettleCall(c, s, e);
    assert BudgetOk(c, s);
    if !all.threw {
      var done := Retire(all.session, e.id);
      assert Advances(all.session, done) && BudgetOk(c, done);
      FinalizeAdvances(c, done, e.disk);
      var final := Finalize(c, done, e.disk);
      assert BudgetOk(c, final.session);
      hide SettleCall, Inv, Finalize, Advances, Respond;
      AdvancesTwice(s, all.session, done);
      AdvancesTwice(s, done, final.session);
      if !final.threw {
        AnswerAdvances(c, final.session, e.size);
        AdvancesTwice(s, final.session, Answer(c, final.session, e.size));
      }
    } else {
      hide SettleCall, Inv, Finalize, Answer, Advances;
    }
  }

  lemma AnswerAdvances(c: Config, s: Session, size: Size)
    requires BudgetOk(c, s)
    ensures Advances(s, Answer(c, s, size))
  {
    RespondAdvances(c, s, size, false);
    hide Respond;
  }

  lemma PreflightAdvances(c: Config, s: Session, readable: bool, disk: Disk, size: Size)
    requires Inv(c, s)
    ensures Advances(s, StepPreflight(c, s, readable, disk, size))
  {
    assert BudgetOk(c, s);
    hide Inv;
    if s.preflight.Some? {
      RespondAdvances(c, s, size, false);
    } else {
      AfterAdvances(c, s, readable, disk);
      var after := AfterPreflight(c, s, readable, disk);
      hide AfterPreflight, Respond;
      RespondAdvances(c, after, size, false);
      AdvancesTwice(s, after, Respond(c, after, size, false));
    }
  }

  lemma VerdictAdvances(s: Session, t: Session, verdict: bool)
    requires s.preflight.None? && Advances(s, t)
    ensures Advances(s, t.(preflight := Some(verdict)))
  {
  }

  lemma CheckedAdvances(c: Config, s: Session, readable: bool, disk: Disk)
    ensures Advances(s, Checked(c, s, readable, disk)) && Checked(c, s, readable, disk).used == s.used
  {
    CheckedFrame(c, s, readable, disk);
    hide Checked;
  }

  lemma AfterAdvances(c: Config, s: Session, readable: bool, disk: Disk)
    requires BudgetOk(c, s) && s.preflight.None?
    ensures Advances(s, AfterPreflight(c, s, readable, disk))
      && BudgetOk(c, AfterPreflight(c, s, readable, disk))
  {
    var checked := Checked(c, s, readable, disk);
    CheckedAdvances(c, s, readable, disk);
    CheckedFrame(c, s, readable, disk);
    var ready := checked.(preflight := Some(true));
    FinalizeAdvances(c, ready, disk);
    FinalizeFrame(c, ready, disk);
    hide Aggregate, Finalize, PreflightChecks, Checked, Complete, Contradicted, Advances;
    var final := Finalize(c, ready, disk);
    if PreflightChecks(c, s, readable, disk) && Complete(s) && !Contradicted(c, s) {
      VerdictAdvances(s, checked, true);
      AdvancesTwice(s, ready, final.session);
      if final.threw { VerdictAdvances(s, final.session, false); }
      else { assert final.session.(preflight := Some(true)) == final.session; }
    } else {
      VerdictAdvances(s, checked, PreflightChecks(c, s, readable, disk) && !Complete(s));
    }
  }

  lemma AcceptedFacts(c: Config, s: Session, e: Event)
    requires e.Submit? && SubmitAccepted(c, s, e)
    ensures SubmittedFinal(s, e).status == e.params.status
      && (Decisive(e.params.status) ==> !s.exceeded)
  {
    hide Aggregate;
  }

  lemma WrittenMonotone(c: Config, s: Session, f: Final, e: Event)
    requires e.Submit?
    ensures Monotone(s, Written(c, s, f, e)) && Written(c, s, f, e).used == s.used
    ensures Written(c, s, f, e).resultFile == s.resultFile
      || Written(c, s, f, e).resultFile == Some(Submission(f, s.exceeded))
  {
    PublishFinalFrame(c, s, f, e.disk);
    hide PublishFinal, Stored;
  }

  lemma SubmitMonotone(c: Config, s: Session, e: Event)
    requires e.Submit? && Inv(c, s)
    ensures Monotone(s, StepSubmit(c, s, e))
    ensures s.resultFile.None? && StepSubmit(c, s, e).resultFile.Some? ==>
      StepSubmit(c, s, e).resultFile.value.exceeded == s.exceeded
      && (s.exceeded ==> !Decisive(StepSubmit(c, s, e).resultFile.value.final.status))
  {
    assert BudgetOk(c, s);
    var f := SubmittedFinal(s, e);
    var written := Written(c, s, f, e);
    WrittenMonotone(c, s, f, e);
    hide Inv, Written, ResultLinked, Respond;
    RespondOk(c, written, e.size, true);
    if SubmitAccepted(c, s, e) { AcceptedFacts(c, s, e); }
    hide SubmitAccepted, SubmittedFinal;
  }

  lemma OtherStepsAdvance(c: Config, s: Session, e: Event)
    requires ConfigOk(c) && Inv(c, s) && !e.Submit?
    ensures Advances(s, Step(c, s, e))
  {
    assert BudgetOk(c, s);
    match e
    case SubagentCall(_, _, _) => CallAdvances(c, s, e);
    case AxesReturn(id, _, _, _, size) => if id in s.calls { AxesAdvance(c, s, e); }
        else { RespondAdvances(c, s, size, false); }
    case GenericReturn(projected, size) =>
      if projected {
        RespondAdvances(c, s, size, false);
      } else {
        assert Advances(s, s.(exceeded := true));
        RespondAdvances(c, s.(exceeded := true), size, true);
        AdvancesTwice(s, s.(exceeded := true), Respond(c, s.(exceeded := true), size, true));
      }
    case Preflight(readable, disk, size) => PreflightAdvances(c, s, readable, disk, size);
    hide Inv, StepCall, StepAxes, StepPreflight, StepSubmit, Respond, Advances;
  }

  lemma StepMonotone(c: Config, s: Session, e: Event)
    requires ConfigOk(c) && Inv(c, s)
    ensures Monotone(s, Step(c, s, e))
  {
    if e.Submit? { SubmitMonotone(c, s, e); } else { OtherStepsAdvance(c, s, e); }
    hide Inv, StepCall, StepAxes, StepPreflight, StepSubmit, StepGeneric;
  }

  /** From any point of a run on: the budget overrun, the preflight verdict, each axis result and brief, the
    * final and the result file stay as they are once they are there. In particular there is at most one
    * submission, and no axis is relaunched under another brief. */
  lemma {:induction false} NothingIsTakenBack(c: Config, events: seq<Event>, m: nat)
    requires ConfigOk(c) && m <= |events|
    ensures Monotone(Run(c, events[..m]), Run(c, events))
    decreases |events|
  {
    if m == |events| {
      assert events[..m] == events;
    } else {
      var front := events[..|events| - 1];
      NothingIsTakenBack(c, front, m);
      assert front[..m] == events[..m];
      RunKeepsInv(c, front);
      StepMonotone(c, Run(c, front), events[|events| - 1]);
      hide Inv, Step, ConfigOk;
    }
  }

  lemma OverrunStep(c: Config, s: Session, e: Event)
    requires ConfigOk(c) && Inv(c, s) && s.exceeded
    requires s.resultFile.Some? ==> !Decisive(s.resultFile.value.final.status)
    ensures var t := Step(c, s, e);
      t.exceeded && (t.resultFile.Some? ==> !Decisive(t.resultFile.value.final.status))
  {
    if e.Submit? { SubmitMonotone(c, s, e); } else { OtherStepsAdvance(c, s, e); }
    hide Inv, StepCall, StepAxes, StepPreflight, StepSubmit, StepGeneric;
  }

  /** Once the budget is overrun without a decision on disk, no `pass` or `changes` is ever written. */
  lemma {:induction false} NoDecisionAfterOverrun(c: Config, events: seq<Event>, m: nat)
    requires ConfigOk(c) && m <= |events| && Run(c, events[..m]).exceeded
    requires Run(c, events[..m]).resultFile.Some? ==> !Decisive(Run(c, events[..m]).resultFile.value.final.status)
    ensures Run(c, events).exceeded
    ensures Run(c, events).resultFile.Some? ==> !Decisive(Run(c, events).resultFile.value.final.status)
    decreases |events|
  {
    if m == |events| {
      assert events[..m] == events;
    } else {
      var front := events[..|events| - 1];
      assert front[..m] == events[..m];
      NoDecisionAfterOverrun(c, front, m);
      RunKeepsInv(c, front);
      OverrunStep(c, Run(c, front), events[|events| - 1]);
      hide Inv, Step, ConfigOk;
    }
  }

  // ----- the final checkpoint -----

  /** With checkpoints and no reused final, the submitted decision is what the final checkpoint holds unless the
    * link made right after aggregation failed: the handler keeps the aggregation although it could not be
    * stored. */
  lemma DecisionIsDurableExactly(c: Config, events: seq<Event>)
    requires ConfigOk(c) && c.checkpointing && c.reusedFinal.None?
    requires Run(c, events).resultFile.Some? && Decisive(Run(c, events).resultFile.value.final.status)
    ensures var s := Run(c, events); s.finalFile == Some(s.resultFile.value.final) <==> !s.lost
  {
    RunKeepsInv(c, events);
  }

  /** A review whose aggregation holds more than 64 findings, as two full axes and a failed validation do, can never be
    * decided: the tool's own schema refuses the only result the handler would accept. */
  lemma OverfullReviewCannotDecide(c: Config, events: seq<Event>)
    requires ConfigOk(c)
      && BothAxes(Run(c, events).results)
      && |Aggregate(Run(c, events).results, c.receipt).findings| > 64
    ensures Run(c, events).resultFile.Some? ==> !Decisive(Run(c, events).resultFile.value.final.status)
  {
    RunKeepsInv(c, events);
  }

  // ----- when a completed review can be decided -----

  /** What a submission leaves alone. */
  predicate SameReview(s: Session, t: Session) {
    t.axesCompleted == s.axesCompleted && t.preflight == s.preflight && t.final == s.final && t.results == s.results
  }

  /** Nothing the outcome of a review depends on differs. */
  predicate SameOutcome(s: Session, t: Session) {
    SameReview(s, t) && t.resultFile == s.resultFile && t.submitted == s.submitted
  }

  lemma {:induction false} LaunchAllKeepsOutcome(s: Session, tasks: seq<Task>)
    ensures SameOutcome(s, LaunchAll(s, tasks))
    decreases |tasks|
  {
    if tasks != [] { LaunchAllKeepsOutcome(Launch(s, tasks[0]), tasks[1..]); }
  }

  lemma SettleOneFrame(c: Config, s: Session, a: Axis, p: Projected, disk: Disk)
    ensures var t := SettleOne(c, s, a, p, disk).session; SameOutcome(s, t.(results := s.results))
  {
  }

  lemma {:induction false} SettleAllFrame(c: Config, s: Session, tasks: seq<Task>, outcome: map<Axis, Projected>,
      disk: Disk)
    ensures var t := SettleAll(c, s, tasks, outcome, disk).session; SameOutcome(s, t.(results := s.results))
    decreases |tasks|
  {
    hide SettleOne;
    if tasks != [] {
      var a, p := tasks[0].axis, Returned(outcome, tasks[0].axis);
      SettleOneFrame(c, s, a, p, disk);
      SettleAllFrame(c, SettleOne(c, s, a, p, disk).session, tasks[1..], outcome, disk);
    }
  }

  lemma RespondKeepsOutcome(c: Config, s: Session, size: Size, reserved: bool)
    ensures SameOutcome(s, Respond(c, s, size, reserved))
  {
    hide BytesAfter, Fits;
  }

  /** What the invariant says about axes and final. */
  lemma InvFacts(c: Config, s: Session)
    requires Inv(c, s)
    ensures s.axesCompleted ==> BothAxes(s.results)
    ensures s.final.Some? && s.preflight == Some(true)
      ==> BothAxes(s.results) && s.final.value == Aggregate(s.results, c.receipt)
    ensures s.submitted ==> s.resultFile.Some?
  {
    hide LaunchOk, CallsOk, GateOk, DurableOk, BudgetOk, Aggregate;
  }

  /** Once the environment is ready and both axes are complete, the aggregation has been made. */
  predicate Concluded(s: Session) {
    s.axesCompleted && s.preflight == Some(true) ==> s.final.Some?
  }

  lemma FinalizeConcludes(c: Config, s: Session, disk: Disk)
    requires s.axesCompleted ==> BothAxes(s.results)
    ensures Concluded(Finalize(c, s, disk).session)
  {
    hide Aggregate, FinalFits;
  }

  lemma AxesConclude(c: Config, s: Session, e: Event)
    requires e.AxesReturn? && e.id in s.calls && Concluded(s)
    ensures Concluded(StepAxes(c, s, e))
  {
    if e.captured { SettleAllFrame(c, s, s.calls[e.id], e.outcome, e.disk); }
    var settled := SettleCall(c, s, e);
    assert Concluded(settled.session);
    hide SettleCall, Finalize, Respond, SameOutcome;
    if !settled.threw {
      var final := Finalize(c, Retire(settled.session, e.id), e.disk);
      FinalizeConcludes(c, Retire(settled.session, e.id), e.disk);
      if !final.threw { AnswerConcludes(c, final.session, e.size); }
      hide Answer, Retire;
    }
  }

  lemma AnswerConcludes(c: Config, s: Session, size: Size)
    requires Concluded(s)
    ensures Concluded(Answer(c, s, size))
  {
    RespondKeepsOutcome(c, s, size, false);
    hide Respond;
  }

  lemma PreflightConcludes(c: Config, s: Session, readable: bool, disk: Disk)
    requires s.axesCompleted ==> BothAxes(s.results)
    ensures Concluded(AfterPreflight(c, s, readable, disk))
  {
    CheckedFrame(c, s, readable, disk);
    hide Checked, PreflightChecks, Contradicted, Finalize;
    FinalizeConcludes(c, Checked(c, s, readable, disk).(preflight := Some(true)), disk);
    FinalizeFrame(c, Checked(c, s, readable, disk).(preflight := Some(true)), disk);
  }

  /** A submission touches only the budget and what is on disk: the result file, when it is accepted, and before
    * it perhaps a final checkpoint. */
  lemma SubmitFrame(c: Config, s: Session, e: Event)
    requires e.Submit?
    ensures var t := StepSubmit(c, s, e);
      && SameReview(s, t)
      && (t.resultFile == s.resultFile
          || (SubmitAccepted(c, s, e) && t.resultFile == Some(Submission(SubmittedFinal(s, e), s.exceeded))))
  {
    var f := SubmittedFinal(s, e);
    WrittenFrame(c, s, f, e);
    RespondKeepsOutcome(c, Written(c, s, f, e), e.size, true);
    hide SubmitAccepted, SubmittedFinal, Written, ResultLinked, Respond;
  }

  lemma WrittenFrame(c: Config, s: Session, f: Final, e: Event)
    requires e.Submit?
    ensures var t := Written(c, s, f, e);
      SameReview(s, t) && t.resultFile == if ResultLinked(c, s, f, e) then Some(Submission(f, s.exceeded))
        else s.resultFile
  {
    PublishFinalFrame(c, s, f, e.disk);
    hide PublishFinal, ResultLinked;
  }

  lemma StepConcludes(c: Config, s: Session, e: Event)
    requires Inv(c, s) && Concluded(s)
    ensures Concluded(Step(c, s, e))
  {
    InvFacts(c, s);
    match e {
      case SubagentCall(_, _, _) =>
        hide Inv, CallAllowed, LaunchAll;
        if CallAllowed(c, s, e) { LaunchAllKeepsOutcome(s, e.tasks.value); }
      case AxesReturn(id, _, _, _, size) =>
        hide Inv, StepAxes, Respond;
        if id in s.calls { AxesConclude(c, s, e); } else { RespondKeepsOutcome(c, s, size, false); }
      case Preflight(readable, disk, size) =>
        hide Inv, AfterPreflight, Respond;
        PreflightConcludes(c, s, readable, disk);
        RespondKeepsOutcome(c, if s.preflight.Some? then s else AfterPreflight(c, s, readable, disk), size, false);
      case Submit(_, _, _, _, _, _, _) =>
        hide Inv, StepSubmit;
        SubmitFrame(c, s, e);
      case GenericReturn(projected, size) =>
        hide Inv, Respond;
        RespondKeepsOutcome(c, s, size, false);
        RespondKeepsOutcome(c, s.(exceeded := true), size, true);
    }
  }

  lemma {:induction false} RunConcludes(c: Config, events: seq<Event>)
    requires ConfigOk(c)
    ensures Concluded(Run(c, events))
  {
    if events != [] {
      var front := events[..|events| - 1];
      RunConcludes(c, front);
      RunKeepsInv(c, front);
      hide Inv, Step, ConfigOk, Concluded;
      StepConcludes(c, Run(c, front), events[|events| - 1]);
    }
  }

  // ----- axis results as the projection accepts them -----

  const AXIS_FINDING_LIMIT := 32

  predicate ValidRef(t: Text) {
    HasInk(t) && 10 !in t && 13 !in t && ByteLength(t) <= 512
  }

  predicate ValidFinding(f: AxisFinding) {
    && HasInk(f.summary) && ByteLength(f.summary) <= 1_000
    && 1 <= |f.refs| <= 16 && (forall i :: 0 <= i < |f.refs| ==> ValidRef(f.refs[i]))
    && ByteLength(Join(f.refs)) <= 4_000
  }

  /** `validAxisResult`, for the statuses that complete an axis. */
  predicate ValidAxisResult(r: AxisResult) {
    && HasInk(r.summary) && |r.findings| <= AXIS_FINDING_LIMIT
    && (forall i :: 0 <= i < |r.findings| ==> ValidFinding(r.findings[i]))
    && (r.status.AxisChanges? <==> r.findings != [])
  }

  predicate ValidProjected(p: Projected) {
    p.Usable? ==> ValidAxisResult(p.result)
  }

  ghost predicate ValidEvent(e: Event) {
    e.AxesReturn? ==> forall a: Axis :: a in e.outcome ==> ValidProjected(e.outcome[a])
  }

  ghost predicate ValidResults(results: map<Axis, AxisResult>) {
    forall a: Axis :: a in results ==> ValidAxisResult(results[a])
  }

  /** Reused results are valid, and the finding a failed validation stands for fits the schema. */
  ghost predicate ValidConfig(c: Config) {
    ValidResults(c.reused)
    && (c.receipt.FailedChecks? ==> FindingFits(c.receipt.finding))
  }

  lemma SettleOneValid(c: Config, s: Session, a: Axis, p: Projected, disk: Disk)
    requires ValidResults(s.results) && ValidProjected(p)
    ensures ValidResults(SettleOne(c, s, a, p, disk).session.results)
  {
    hide ValidAxisResult;
  }

  lemma {:induction false} SettleAllValid(c: Config, s: Session, tasks: seq<Task>, outcome: map<Axis, Projected>,
      disk: Disk)
    requires ValidResults(s.results) && forall a: Axis :: a in outcome ==> ValidProjected(outcome[a])
    ensures ValidResults(SettleAll(c, s, tasks, outcome, disk).session.results)
    decreases |tasks|
  {
    if tasks != [] {
      var p := Returned(outcome, tasks[0].axis);
      assert ValidProjected(p);
      hide SettleOne, ValidResults, ValidProjected;
      SettleOneValid(c, s, tasks[0].axis, p, disk);
      SettleAllValid(c, SettleOne(c, s, tasks[0].axis, p, disk).session, tasks[1..], outcome, disk);
    }
  }

  lemma AxesKeepResults(c: Config, s: Session, e: Event)
    requires e.AxesReturn? && e.id in s.calls
    ensures StepAxes(c, s, e).results == SettleCall(c, s, e).session.results
  {
    hide SettleCall, Finalize, Respond;
    var done := Retire(SettleCall(c, s, e).session, e.id);
    FinalizeFrame(c, done, e.disk);
    RespondKeepsOutcome(c, Finalize(c, done, e.disk).session, e.size, false);
  }

  lemma PreflightKeepsResults(c: Config, s: Session, readable: bool, disk: Disk)
    ensures AfterPreflight(c, s, readable, disk).results == s.results
  {
    CheckedFrame(c, s, readable, disk);
    hide Checked, PreflightChecks, Contradicted, Finalize;
    FinalizeFrame(c, Checked(c, s, readable, disk).(preflight := Some(true)), disk);
  }

  lemma StepValid(c: Config, s: Session, e: Event)
    requires ValidResults(s.results) && ValidEvent(e)
    ensures ValidResults(Step(c, s, e).results)
  {
    match e {
      case SubagentCall(_, _, _) =>
        hide CallAllowed, LaunchAll, ValidResults;
        if CallAllowed(c, s, e) { LaunchAllKeepsOutcome(s, e.tasks.value); }
      case AxesReturn(id, captured, outcome, disk, size) =>
        if id in s.calls {
          SettleAllValid(c, s, s.calls[id], outcome, disk);
          AxesKeepResults(c, s, e);
          hide SettleAll, StepAxes, ValidResults;
        } else {
          hide ValidResults, Respond;
          RespondKeepsOutcome(c, s, size, false);
        }
      case Preflight(readable, disk, size) =>
        hide ValidResults, AfterPreflight, Respond;
        PreflightKeepsResults(c, s, readable, disk);
        RespondKeepsOutcome(c, if s.preflight.Some? then s else AfterPreflight(c, s, readable, disk), size, false);
      case Submit(_, _, _, _, _, _, _) =>
        hide ValidResults, StepSubmit;
        SubmitFrame(c, s, e);
      case GenericReturn(projected, size) =>
        hide ValidResults, Respond;
        RespondKeepsOutcome(c, s, size, false);
        RespondKeepsOutcome(c, s.(exceeded := true), size, true);
    }
  }

  lemma {:induction false} RunValid(c: Config, events: seq<Event>)
    requires ValidConfig(c) && forall i :: 0 <= i < |events| ==> ValidEvent(events[i])
    ensures ValidResults(Run(c, events).results)
  {
    hide ValidEvent, ValidResults, Step;
    if events != [] {
      var front := events[..|events| - 1];
      RunValid(c, front);
      StepValid(c, Run(c, front), events[|events| - 1]);
    }
  }

  lemma EvidenceFits(refs: seq<Text>)
    requires |refs| >= 1 && ValidRef(refs[0])
    ensures |Join(refs)| >= 1
  {
    assert |refs[0]| > 0;
  }

  lemma FindingsFit(fs: seq<AxisFinding>, i: nat)
    requires i < |fs| && ValidFinding(fs[i])
    ensures FindingFits(SubmittedFindings(fs)[i])
  {
    UnitsAtMostBytes(fs[i].summary);
    UnitsAtMostBytes(Join(fs[i].refs));
    EvidenceFits(fs[i].refs);
  }

  lemma TwoDigits(n: nat)
    requires n < 100
    ensures |Decimal(n)| <= 2
  {
  }

  lemma SummaryFits(n: nat)
    requires n <= 64
    ensures 1 <= |CountSummary(n)| <= 4_000 && 1 <= |AllPassed()| <= 4_000
  {
    TwoDigits(n);
    hide Decimal;
  }

  /** For valid axis results the schema of the tool asks one thing of their aggregation: at most 64 findings. */
  lemma AggregationFits(results: map<Axis, AxisResult>, receipt: Receipt)
    requires BothAxes(results) && ValidResults(results) && (receipt.FailedChecks? ==> FindingFits(receipt.finding))
    ensures ParamsOk(Aggregate(results, receipt)) <==> |Aggregate(results, receipt).findings| <= 64
  {
    var f := Aggregate(results, receipt);
    var xs, ys := results[Standards].findings, results[Spec].findings;
    var fx, fy := SubmittedFindings(xs), SubmittedFindings(ys);
    assert f.findings == fx + fy + ValidationFindings(receipt);
    if |f.findings| <= 64 {
      SummaryFits(|f.findings|);
      hide CountSummary, AllPassed;
      assert 1 <= |f.summary| <= 4_000;
      assert ValidAxisResult(results[Standards]) && ValidAxisResult(results[Spec]);
      hide Aggregate, FindingFits, ValidFinding, ValidResults;
      forall i | 0 <= i < |f.findings| ensures FindingFits(f.findings[i]) {
        if i < |xs| { FindingsFit(xs, i); } else if i < |xs| + |ys| { FindingsFit(ys, i - |xs|); }
      }
    }
  }

  /** Nothing but the tool's own parameter schema stands between the review and its decision. */
  predicate Undecided(s: Session) {
    s.axesCompleted && s.preflight == Some(true) && !s.exceeded && !s.submitted && s.resultFile.None?
  }

  /** The submission the handler waits for, with every write succeeding. */
  function SubmissionOf(f: Final): Event {
    Submit(f, [], true, Disk({}, {}), true, true, Size(0, 0))
  }

  predicate Decides(c: Config, s: Session, e: Event) {
    var t := Step(c, s, e);
    e.Submit? && t.resultFile.Some? && Decisive(t.resultFile.value.final.status)
  }

  /** A decision is written only by an accepted submission of the final, which the schema lets through. */
  lemma OnlyTheAggregation(c: Config, s: Session, e: Event)
    requires s.resultFile.None? && Decides(c, s, e)
    ensures s.final.Some? && ParamsOk(s.final.value)
  {
    DecidesByAccepted(c, s, e);
    hide Decides, ParamsOk, Aggregate, SameFindings, BlockedSummary;
  }

  lemma DecidesByAccepted(c: Config, s: Session, e: Event)
    requires s.resultFile.None? && Decides(c, s, e)
    ensures e.Submit? && SubmitAccepted(c, s, e) && Decisive(SubmittedFinal(s, e).status)
  {
    SubmitFrame(c, s, e);
    hide StepSubmit, SubmitAccepted, SubmittedFinal;
  }

  lemma AggregationAccepted(c: Config, s: Session, f: Final)
    requires Undecided(s) && BothAxes(s.results) && ValidResults(s.results)
    requires f == Aggregate(s.results, c.receipt) && s.final == Some(f) && ParamsOk(f)
    ensures SubmitAccepted(c, s, SubmissionOf(f)) && SubmittedFinal(s, SubmissionOf(f)) == f && Decisive(f.status)
  {
    assert ValidAxisResult(s.results[Standards]) && ValidAxisResult(s.results[Spec]);
    hide ParamsOk, BlockedSummary, ValidFinding, ValidResults, CountSummary, AllPassed;
  }

  lemma AggregationDecides(c: Config, s: Session, f: Final)
    requires Undecided(s) && BothAxes(s.results) && ValidResults(s.results)
    requires f == Aggregate(s.results, c.receipt) && s.final == Some(f) && ParamsOk(f)
    ensures Decides(c, s, SubmissionOf(f)) && Step(c, s, SubmissionOf(f)).resultFile == Some(Submission(f, false))
  {
    AggregationAccepted(c, s, f);
    var e := SubmissionOf(f);
    assert ResultLinked(c, s, f, e) && e.resultClean && Written(c, s, f, e).resultFile == Some(Submission(f, false));
    hide SubmitAccepted, SubmittedFinal, Written, ResultLinked, ParamsOk, Aggregate, Respond, ValidResults;
    RespondKeepsOutcome(c, Written(c, s, f, e), e.size, true);
  }

  lemma SubmissionKeepsFinalFile(c: Config, s: Session, e: Event)
    requires e.Submit? && s.final.Some?
    ensures StepSubmit(c, s, e).finalFile == s.finalFile
  {
    hide SubmitAccepted, SubmittedFinal, ResultLinked, Fits, BytesAfter;
  }

  /** Exactly when a completed review can be decided: in every run on valid axis results, once both axes are
    * complete in a ready environment, some submission writes a decision if and only if the aggregation holds at
    * most 64 findings; and then the one that repeats the aggregation does. */
  lemma DecidableExactly(c: Config, events: seq<Event>)
    requires ConfigOk(c) && ValidConfig(c) && forall i :: 0 <= i < |events| ==> ValidEvent(events[i])
    requires Undecided(Run(c, events))
    ensures BothAxes(Run(c, events).results)
    ensures var s := Run(c, events);
      var f := Aggregate(s.results, c.receipt);
      && s.final == Some(f) && Faithful(s.results, c.receipt, f)
      && ((exists e :: Decides(c, s, e)) <==> FindingCount(s.results, c.receipt) <= 64)
      && (|f.findings| <= 64 ==> Step(c, s, SubmissionOf(f)).resultFile == Some(Submission(f, false)))
  {
    RunKeepsInv(c, events);
    RunConcludes(c, events);
    RunValid(c, events);
    var s := Run(c, events);
    InvFacts(c, s);
    AggregationFits(s.results, c.receipt);
    AggregateIsFaithful(s.results, c.receipt);
    var f := s.final.value;
    assert |f.findings| == FindingCount(s.results, c.receipt);
    hide Inv, Faithful, FindingCount, Aggregate, ParamsOk, Decides, Step, Run, ConfigOk, ValidResults, FindingFits;
    forall e | Decides(c, s, e) ensures ParamsOk(f) { OnlyTheAggregation(c, s, e); }
    if ParamsOk(f) { AggregationDecides(c, s, f); }
  }

  // ----- two concrete reviews -----

  function Briefs(): seq<Task> {
    [Task(Standards, Ascii("Axis: Standards") + NEWLINE + Ascii("Review the change.")),
     Task(Spec, Ascii("Axis: Spec") + NEWLINE + Ascii("Review the change."))]
  }

  /** Every link but the final checkpoint's succeeds. */
  function NoFinalDisk(): Disk {
    Disk({PreflightPoint, AxisPoint(Standards), AxisPoint(Spec)},
      {PreflightPoint, AxisPoint(Standards), AxisPoint(Spec)})
  }

  /** Preflight, both axes at once, and their results a and b. */
  function TwoAxisReview(a: AxisResult, b: AxisResult): seq<Event> {
    [Preflight(true, NoFinalDisk(), Size(1, 1)), SubagentCall(0, true, Some(Briefs())),
     AxesReturn(0, true, map[Standards := Usable(a), Spec := Usable(b)], NoFinalDisk(), Size(1, 1))]
  }

  /** Nothing is reused, both axes may run at once, and the budget has room. */
  predicate PlainStart(c: Config) {
    && c.concurrency == 2 && c.reserve >= 1 && c.initialBytes + 2 + c.reserve <= c.budget
    && c.reusedPreflight.None? && c.reused == map[] && c.reusedFinal.None?
  }

  function AfterReady(c: Config): Session {
    Start(c).(preflight := Some(true), published := if c.checkpointing then {PreflightPoint} else {},
              used := c.initialBytes + 1)
  }

  lemma PlainPreflight(c: Config, a: AxisResult, b: AxisResult)
    requires PlainStart(c)
    ensures Step(c, Start(c), TwoAxisReview(a, b)[0]) == AfterReady(c)
  {
    hide Briefs;
  }

  lemma PlainCall(c: Config, a: AxisResult, b: AxisResult)
    requires PlainStart(c)
    ensures var s := AfterReady(c);
      var t := Step(c, s, TwoAxisReview(a, b)[1]);
      t == s.(calls := map[0 := Briefs()], briefs := t.briefs, launches := t.launches)
  {
    var s := AfterReady(c);
    assert Briefs()[0].axis == Standards && Briefs()[1].axis == Spec && |Briefs()| == 2;
    hide Briefs;
    LaunchAllIs(s, Briefs());
  }

  /** The session once both axes have returned. */
  predicate BothReturned(c: Config, a: AxisResult, b: AxisResult, s: Session) {
    && s.results == map[Standards := a, Spec := b] && s.axesCompleted && s.preflight == Some(true)
    && s.final == Some(Aggregate(map[Standards := a, Spec := b], c.receipt)) && s.finalFile.None?
    && !s.exceeded && !s.submitted && s.resultFile.None? && s.failures == {}
  }

  lemma PlainSettled(c: Config, a: AxisResult, b: AxisResult, s: Session)
    requires PlainStart(c)
    requires s == AfterReady(c).(calls := map[0 := Briefs()], briefs := s.briefs, launches := s.launches)
    ensures var t := SettleAll(c, s, Briefs(), map[Standards := Usable(a), Spec := Usable(b)], NoFinalDisk());
      && t.session == s.(results := map[Standards := a, Spec := b], published := t.session.published) && !t.threw
      && FinalPoint !in t.session.published
  {
    var outcome := map[Standards := Usable(a), Spec := Usable(b)];
    assert Briefs()[0].axis == Standards && Briefs()[1].axis == Spec && |Briefs()| == 2;
    hide Briefs;
    SettleAllTwo(c, s, Briefs(), outcome, NoFinalDisk());
    var one := SettleOne(c, s, Standards, Usable(a), NoFinalDisk());
    var p1: set<Checkpoint> := if c.checkpointing then {PreflightPoint, AxisPoint(Standards)} else {};
    assert one == Handled(s.(published := p1, results := map[Standards := a]), false);
    var two := SettleOne(c, one.session, Spec, Usable(b), NoFinalDisk());
    var p2: set<Checkpoint> := if c.checkpointing then {PreflightPoint, AxisPoint(Standards), AxisPoint(Spec)} else {};
    assert two == Handled(s.(published := p2, results := map[Standards := a, Spec := b]), false);
  }

  lemma PlainReturn(c: Config, a: AxisResult, b: AxisResult, s: Session)
    requires PlainStart(c)
    requires s == AfterReady(c).(calls := map[0 := Briefs()], briefs := s.briefs, launches := s.launches)
    ensures BothReturned(c, a, b, Step(c, s, TwoAxisReview(a, b)[2]))
  {
    PlainSettled(c, a, b, s);
    hide Briefs, SettleAll, Aggregate, FinalFits;
    var e := TwoAxisReview(a, b)[2];
    var settled := SettleCall(c, s, e);
    var done := Retire(settled.session, 0);
    assert BothAxes(done.results) && FinalDue(done);
    var final := Finalize(c, done, e.disk);
    assert final.session.final == Some(Aggregate(done.results, c.receipt)) && final.session.finalFile.None?;
    assert final.threw <==> c.checkpointing;
  }

  /** A review from a plain start on two axis results: it is complete and aggregated, and no final checkpoint is
    * linked. */
  lemma TwoAxesReturn(c: Config, a: AxisResult, b: AxisResult)
    requires PlainStart(c)
    ensures BothReturned(c, a, b, Run(c, TwoAxisReview(a, b)))
  {
    var es := TwoAxisReview(a, b);
    assert es[..3] == es && es[..3][..2] == es[..2] && es[..2][..1] == es[..1] && es[..1][..0] == [];
    PlainPreflight(c, a, b);
    assert Run(c, es[..1]) == Step(c, Start(c), es[0]);
    PlainCall(c, a, b);
    assert Run(c, es[..2]) == Step(c, Run(c, es[..1]), es[1]);
    PlainReturn(c, a, b, Run(c, es[..2]));
    hide Step, TwoAxisReview, BothReturned;
    assert Run(c, es) == Step(c, Run(c, es[..2]), es[2]);
  }

  function Fine(): AxisResult {
    AxisResult(AxisPass, Ascii("No findings."), [])
  }

  function LossyConfig(): Config {
    Config(2, 1_000, 1, 0, true, Passed, None, map[], false, None)
  }

  /** With checkpoints, and every link but the final's succeeding, the pass is submitted all the same. */
  lemma DecisionCanBeLost()
    ensures ConfigOk(LossyConfig()) && LossyConfig().checkpointing && ValidAxisResult(Fine())
    ensures var s := Run(LossyConfig(), TwoAxisReview(Fine(), Fine()) + [SubmissionOf(Final(Passes, AllPassed(), []))]);
      s.resultFile == Some(Submission(Final(Passes, AllPassed(), []), false)) && s.finalFile.None?
  {
    var c, events, f := LossyConfig(), TwoAxisReview(Fine(), Fine()), Final(Passes, AllPassed(), []);
    assert HasInk(Fine().summary) by { assert !IsSpace(Fine().summary[0]); }
    TwoAxesReturn(c, Fine(), Fine());
    var s := Run(c, events);
    assert Aggregate(s.results, Passed) == f;
    assert ConfigOk(c) && ValidResults(s.results) && 1 <= |AllPassed()| <= 4_000;
    assert (events + [SubmissionOf(f)])[..|events|] == events;
    hide Run, TwoAxisReview, Aggregate, Fine, ConfigOk, ValidAxisResult, AllPassed;
    AggregationDecides(c, s, f);
    SubmissionKeepsFinalFile(c, s, SubmissionOf(f));
  }

  /** An axis result with 32 findings, the most one axis may have. */
  function FullAxis(): AxisResult {
    AxisResult(AxisChanges, Ascii("Many findings."), seq(32, i => SampleFinding()))
  }

  function FullConfig(): Config {
    Config(2, 1_000, 1, 0, true, FailedChecks(Finding(Major, Ascii("Validation failed."), Ascii("exit code 1"))),
      None, map[], false, None)
  }

  lemma PlainTextOk(s: string)
    requires 1 <= |s| <= 500 && s[0] > ' ' && forall i :: 0 <= i < |s| ==> ' ' <= s[i] < '\U{0080}'
    ensures HasInk(Ascii(s)) && ByteLength(Ascii(s)) == |s| && ValidRef(Ascii(s))
  {
    assert Ascii(s)[0] > 0x20 && !IsSpace(Ascii(s)[0]);
    AsciiByteLength(Ascii(s));
    hide IsSpace, ByteLength, Ascii;
  }

  function SampleFinding(): AxisFinding {
    AxisFinding(Minor, Ascii("A finding."), [Ascii("src/a.ts")])
  }

  lemma SampleFindingValid()
    ensures ValidFinding(SampleFinding())
  {
    hide Ascii, ByteLength, HasInk, ValidRef;
    PlainTextOk("A finding.");
    PlainTextOk("src/a.ts");
    assert Join(SampleFinding().refs) == Ascii("src/a.ts");
    hide Join;
  }

  lemma FullAxisValid()
    ensures ValidAxisResult(FullAxis()) && |FullAxis().findings| == 32
  {
    hide Ascii, ByteLength, HasInk, ValidFinding, SampleFinding;
    SampleFindingValid();
    PlainTextOk("Many findings.");
  }

  /** Two full axes and a failed validation: a run on valid results, complete and within its budget, whose 65
    * findings no submission can decide. */
  lemma OverfullReviewHappens()
    ensures ConfigOk(FullConfig()) && ValidConfig(FullConfig())
    ensures forall e :: e in TwoAxisReview(FullAxis(), FullAxis()) ==> ValidEvent(e)
    ensures var s := Run(FullConfig(), TwoAxisReview(FullAxis(), FullAxis()));
      && Undecided(s) && BothAxes(s.results) && |Aggregate(s.results, FullConfig().receipt).findings| == 65
      && forall e :: !Decides(FullConfig(), s, e)
  {
    var c, a := FullConfig(), FullAxis();
    var events := TwoAxisReview(a, a);
    FullAxisValid();
    assert ConfigOk(c) && ValidConfig(c) && PlainStart(c);
    hide FullAxis, ValidAxisResult, Ascii;
    assert forall e :: e in events ==> ValidEvent(e);
    TwoAxesReturn(c, a, a);
    hide TwoAxisReview, Run;
    var s := Run(c, events);
    assert |Aggregate(s.results, c.receipt).findings| == 65;
    hide Aggregate, Decides, FullConfig, ConfigOk, ValidConfig, ValidEvent;
    DecidableExactly(c, events);
  }

  // ----- the handlers -----

  /** The extension's closure variables, changed in place by each handler. */
  class Tools {
    const c: Config
    var preflight: Option<bool>
    var submitted: bool
    var axisFailures: set<Axis>
    var axesCalls: map<CallId, seq<Task>>
    var axisTasks: map<Axis, Text>
    var axisLaunchCounts: map<Axis, nat>
    var retryAvailable: set<Axis>
    var axisResults: map<Axis, AxisResult>
    var axesCompleted: bool
    var finalProposal: Option<Final>
    var used: nat
    var exceeded: bool
    var published: set<Checkpoint>
    var finalFile: Option<Final>
    var resultFile: Option<Submission>
    ghost var lost: bool

    ghost function Snapshot(): Session
      reads this
    {
      Session(preflight, submitted, axisFailures, axesCalls, axisTasks, axisLaunchCounts, retryAvailable,
          axisResults, axesCompleted,
              finalProposal, used, exceeded, published, finalFile, resultFile, lost)
    }

    constructor (c: Config)
      ensures this.c == c && Snapshot() == Start(c)
    {
      this.c := c;
      preflight, submitted, axisFailures, axesCalls, axisTasks := None, false, {}, map[], map[];
      axisLaunchCounts, retryAvailable, axisResults := map[], {}, c.reused;
      axesCompleted, finalProposal := BothAxes(c.reused), c.reusedFinal;
      used, exceeded, published, finalFile, resultFile, lost := c.initialBytes, false, {}, None, None, false;
    }

    method RespondWith(size: Size, reserved: bool)
      modifies this`used, this`exceeded
      ensures Snapshot() == Respond(c, old(Snapshot()), size, reserved)
    {
      var ceiling := if reserved then c.budget else c.budget - c.reserve;
      if (!exceeded || reserved) && used + size.bytes <= ceiling {
        used := used + size.bytes;
        return;
      }
      exceeded := true;
      if used + size.rejected <= c.budget { used := used + size.rejected; }
    }

    method PublishPoint(p: Checkpoint, fits: bool, disk: Disk) returns (ok: bool)
      modifies this`published
      ensures Snapshot() == Publish(c, old(Snapshot()), p, fits, disk)
      ensures ok == Publishes(c, old(Snapshot()), p, fits, disk)
    {
      if !c.checkpointing { return true; }
      if !fits || p in published || p !in disk.links { return false; }
      published := published + {p};
      return p in disk.clean;
    }

    method PublishFinalPoint(f: Final, disk: Disk) returns (ok: bool)
      modifies this`published, this`finalFile
      ensures Snapshot() == PublishFinal(c, old(Snapshot()), f, disk)
      ensures ok == Publishes(c, old(Snapshot()), FinalPoint, FinalFits(f), disk)
    {
      if c.checkpointing && FinalFits(f) && FinalPoint !in published
          && FinalPoint in disk.links { finalFile := Some(f); }
      ok := PublishPoint(FinalPoint, FinalFits(f), disk);
    }

    method TasksMayLaunch(tasks: seq<Task>) returns (ok: bool)
      ensures ok == forall k :: 0 <= k < |tasks| ==> MayLaunch(Snapshot(), tasks[k])
    {
      for i := 0 to |tasks|
        invariant forall k :: 0 <= k < i ==> MayLaunch(Snapshot(), tasks[k])
      {
        var t := tasks[i];
        if t.axis in axisResults { return false; }
        if t.axis in axisLaunchCounts && axisLaunchCounts[t.axis] > 0 && t.axis !in retryAvailable { return false; }
        if t.axis in axisTasks && axisTasks[t.axis] != t.brief { return false; }
      }
      return true;
    }

    method LaunchTask(t: Task)
      modifies this`axisTasks, this`retryAvailable, this`axisLaunchCounts
      ensures Snapshot() == Launch(old(Snapshot()), t)
    {
      if t.axis !in axisTasks { axisTasks := axisTasks[t.axis := t.brief]; }
      retryAvailable := retryAvailable - {t.axis};
      axisLaunchCounts := axisLaunchCounts[t.axis := (if t.axis in axisLaunchCounts then axisLaunchCounts[t.axis]
          else 0) + 1];
    }

    method LaunchTasks(tasks: seq<Task>)
      modifies this`axisTasks, this`retryAvailable, this`axisLaunchCounts
      ensures Snapshot() == LaunchAll(old(Snapshot()), tasks)
    {
      hide Launch;
      assert tasks[0..] == tasks;
      for i := 0 to |tasks|
        invariant LaunchAll(Snapshot(), tasks[i..]) == LaunchAll(old(Snapshot()), tasks)
      {
        assert tasks[i..][1..] == tasks[i + 1..];
        LaunchTask(tasks[i]);
      }
    }

    method OnSubagentCall(id: CallId, runtimeOk: bool, tasks: Option<seq<Task>>) returns (allowed: bool)
      modifies this
      ensures allowed == CallAllowed(c, old(Snapshot()), SubagentCall(id, runtimeOk, tasks))
      ensures Snapshot() == StepCall(c, old(Snapshot()), SubagentCall(id, runtimeOk, tasks))
    {
      hide MayLaunch, LaunchAll, StartupAllowed;
      if exceeded || preflight != Some(true) || !runtimeOk || tasks.None? { return false; }
      if !StartupAllowed(c.concurrency, Standards in axisResults, tasks.value) { return false; }
      var ok := TasksMayLaunch(tasks.value);
      if !ok { return false; }
      LaunchTasks(tasks.value);
      axesCalls := axesCalls[id := tasks.value];
      return true;
    }

    method SettleTask(a: Axis, p: Projected, disk: Disk) returns (threw: bool)
      modifies this`axisFailures, this`retryAvailable, this`axisResults, this`published
      ensures Handled(Snapshot(), threw) == SettleOne(c, old(Snapshot()), a, p, disk)
    {
      match p
      case Unusable(failure, retryable) =>
        if failure { axisFailures := axisFailures + {a}; }
        if retryable && a in axisLaunchCounts && axisLaunchCounts[a] == 1 { retryAvailable := retryAvailable + {a}; }
        return false;
      case Usable(result) =>
        axisFailures := axisFailures - {a};
        var ok := PublishPoint(AxisPoint(a), true, disk);
        if !ok { return true; }
        axisResults := axisResults[a := result];
        return false;
    }

    /** The results of one axis call, in task order, until publishing one fails. */
    method Settle(tasks: seq<Task>, outcome: map<Axis, Projected>, disk: Disk) returns (threw: bool)
      modifies this`axisFailures, this`retryAvailable, this`axisResults, this`published
      ensures Handled(Snapshot(), threw) == SettleAll(c, old(Snapshot()), tasks, outcome, disk)
    {
      hide SettleOne;
      assert tasks[0..] == tasks;
      for i := 0 to |tasks|
        invariant SettleAll(c, Snapshot(), tasks[i..], outcome, disk) == SettleAll(c, old(Snapshot()), tasks,
            outcome, disk)
      {
        assert tasks[i..][1..] == tasks[i + 1..] && tasks[i..][0] == tasks[i];
        threw := SettleTask(tasks[i].axis, Returned(outcome, tasks[i].axis), disk);
        if threw { return; }
      }
      return false;
    }

    method AggregateFinal(disk: Disk) returns (threw: bool)
      modifies this`finalProposal, this`published, this`finalFile, this`lost
      ensures Handled(Snapshot(), threw) == Finalize(c, old(Snapshot()), disk)
    {
      if !(axesCompleted && preflight == Some(true) && finalProposal.None? && BothAxes(axisResults)) { return false; }
      var f := Aggregate(axisResults, c.receipt);
      finalProposal := Some(f);
      ghost var linked := Links(c, Snapshot(), FinalPoint, FinalFits(f), disk);
      var ok := PublishFinalPoint(f, disk);
      lost := lost || (c.checkpointing && !linked);
      return !ok;
    }

    method OnAxesReturn(id: CallId, captured: bool, outcome: map<Axis, Projected>, disk: Disk, size: Size)
      requires id in axesCalls
      modifies this
      ensures Snapshot() == StepAxes(c, old(Snapshot()), AxesReturn(id, captured, outcome, disk, size))
    {
      hide SettleAll, Finalize, Respond, Aggregate;
      if captured {
        var threw := Settle(axesCalls[id], outcome, disk);
        if threw { return; }
      }
      axesCalls := axesCalls - {id};
      axesCompleted := BothAxes(axisResults);
      var threw := AggregateFinal(disk);
      if threw { return; }
      RespondWith(size, false);
      if exceeded { axesCompleted := false; }
    }

    method OnGenericReturn(projected: bool, size: Size)
      modifies this`used, this`exceeded
      ensures Snapshot() == StepGeneric(c, old(Snapshot()), projected, size)
    {
      if projected {
        RespondWith(size, false);
      } else {
        exceeded := true;
        RespondWith(size, true);
      }
    }

    method ReviewPreflight(readable: bool, disk: Disk, size: Size)
      modifies this
      ensures Snapshot() == StepPreflight(c, old(Snapshot()), readable, disk, size)
    {
      if preflight.None? { CheckEnvironment(readable, disk); }
      RespondWith(size, false);
    }

    method CheckEnvironment(readable: bool, disk: Disk)
      requires preflight.None?
      modifies this
      ensures Snapshot() == AfterPreflight(c, old(Snapshot()), readable, disk)
    {
      hide Aggregate, Finalize, FinalFits;
      preflight := Some(false);
      if !readable { return; }
      if c.reusedPreflight.Some? {
        if !c.reusedPreflight.value { return; }
      } else {
        var ok := PublishPoint(PreflightPoint, true, disk);
        if !ok { return; }
      }
      if axesCompleted && BothAxes(axisResults) {
        if finalProposal.Some? && finalProposal.value != Aggregate(axisResults, c.receipt) { return; }
        preflight := Some(true);
        var threw := AggregateFinal(disk);
        if threw { preflight := Some(false); }
      } else {
        preflight := Some(true);
      }
    }

    /** The checks of a submission, in the handler's order. */
    method CheckSubmission(params: Final, audit: Text, readable: bool, ghost e: Event) returns (ok: bool, f: Final)
      requires e.Submit? && e.params == params && e.audit == audit && e.readable == readable
      ensures ok == SubmitAccepted(c, Snapshot(), e) && f == SubmittedFinal(Snapshot(), e)
    {
      f := Final(params.status, if params.status.ReviewBlocked?
          then BlockedSummary(params.summary, axisFailures, audit) else params.summary,
                 params.findings);
      assert f == SubmittedFinal(Snapshot(), e);
      hide Aggregate, SameFindings, BlockedSummary;
      if !ParamsOk(params) || submitted { return false, f; }
      if !Decisive(params.status) { return true, f; }
      if exceeded || !axesCompleted || !BothAxes(axisResults) { return false, f; }
      if params.status.Passes? && !(axisResults[Standards].status.AxisPass?
          && axisResults[Spec].status.AxisPass?) { return false, f; }
      if !readable { return false, f; }
      if params.status.Changes? && !(axisResults[Standards].status.AxisChanges?
          || axisResults[Spec].status.AxisChanges?)
         && ValidationFindings(c.receipt) == [] { return false, f; }
      if !SameFindings(params.findings, Aggregate(axisResults, c.receipt).findings) { return false, f; }
      if preflight != Some(true) { return false, f; }
      if params.status.Passes? && !c.receipt.Passed? { return false, f; }
      return finalProposal == Some(f), f;
    }

    method ReviewSubmit(params: Final, audit: Text, readable: bool, disk: Disk, resultLinked: bool,
        resultClean: bool, size: Size)
        returns (done: bool)
      modifies this
      ensures Snapshot() == StepSubmit(c, old(Snapshot()),
          Submit(params, audit, readable, disk, resultLinked, resultClean, size))
      ensures done ==> submitted
    {
      ghost var e := Submit(params, audit, readable, disk, resultLinked, resultClean, size);
      hide SubmitAccepted, SubmittedFinal, FinalFits, PublishFinal, Respond;
      var ok, f := CheckSubmission(params, audit, readable, e);
      if !ok { return false; }
      if finalProposal.None? {
        var stored := PublishFinalPoint(f, disk);
        PublishFinalFrame(c, old(Snapshot()), f, disk);
        if !stored { return false; }
      }
      if resultFile.Some? || !resultLinked { return false; }
      resultFile := Some(Submission(f, exceeded));
      if !resultClean { return false; }
      submitted := true;
      RespondWith(size, true);
      return true;
    }
  }
}
