// What each of the Reviewer's handlers does, on the session's own fields: which calls and submissions it
// accepts, what it
// accounts, and what it records.
module ReviewerRules {
  import opened Options
  import opened Utf16
  import opened Ledger
  import opened ReviewerTools

  // ----- the context budget -----

  /** An answer is accounted in full within the ceiling, and by its refusal where that still fits; anything but a full
    * answer marks the budget overrun, and nothing else of the session moves. */
  lemma RespondExactly(c: Config, s: Session, size: Size, reserved: bool)
    ensures var t := Respond(c, s, size, reserved);
      var full := (reserved || !s.exceeded) && s.used + size.bytes + (if reserved then 0 else c.reserve) <= c.budget;
      && t == s.(used := t.used, exceeded := t.exceeded)
      && (full ==> t.used == s.used + size.bytes && t.exceeded == s.exceeded)
      && (!full ==> t.exceeded)
      && (!full && s.used + size.rejected <= c.budget ==> t.used == s.used + size.rejected)
      && (!full && s.used + size.rejected > c.budget ==> t.used == s.used)
  {
  }

  // ----- launching axes -----

  /** The axis has no result yet, was not launched or may be retried, and keeps its brief. */
  ghost predicate Launchable(s: Session, t: Task) {
    && t.axis !in s.results
    && (t.axis !in s.launches || s.launches[t.axis] == 0 || t.axis in s.retry)
    && (t.axis in s.briefs ==> s.briefs[t.axis] == t.brief)
  }

  /** One axis, Spec exactly when Standards has its result, or with concurrency 2 both, before either has. */
  ghost predicate AxesInOrder(c: Config, s: Session, ts: seq<Task>) {
    || (|ts| == 1 && 1 <= c.concurrency <= 2 && (ts[0].axis.Spec? <==> Standards in s.results))
    || (|ts| == 2 && c.concurrency == 2 && ts[0].axis.Standards? && ts[1].axis.Spec? && Standards !in s.results)
  }

  /** When a call may launch axes. */
  lemma CallExactly(c: Config, s: Session, e: Event)
    requires e.SubagentCall?
    ensures CallAllowed(c, s, e) <==>
      && !s.exceeded && s.preflight == Some(true) && e.runtimeOk && e.tasks.Some?
      && AxesInOrder(c, s, e.tasks.value) && forall i :: 0 <= i < |e.tasks.value| ==> Launchable(s, e.tasks.value[i])
  {
    if e.tasks.Some? {
      var ts := e.tasks.value;
      assert StartupAllowed(c.concurrency, Standards in s.results, ts) <==> AxesInOrder(c, s, ts);
      assert forall i :: 0 <= i < |ts| ==> (MayLaunch(s, ts[i]) <==> Launchable(s, ts[i]));
      hide StartupAllowed, AxesInOrder, MayLaunch, Launchable;
    }
  }

  predicate InTasks(ts: seq<Task>, a: Axis) {
    exists i :: 0 <= i < |ts| && ts[i].axis == a
  }

  /** What an allowed call records: its tasks, one more launch of each axis under its brief, and a retry used up. */
  ghost predicate Launched(s: Session, t: Session, ts: seq<Task>) {
    && (forall a: Axis :: Count(t, a) == Count(s, a) + if InTasks(ts, a) then 1 else 0)
    && (forall a: Axis :: a in t.retry <==> a in s.retry && !InTasks(ts, a))
    && (forall a: Axis :: a in t.briefs <==> a in s.briefs || InTasks(ts, a))
    && (forall a: Axis :: a in s.briefs ==> t.briefs[a] == s.briefs[a])
    && (forall i :: 0 <= i < |ts| ==> ts[i].axis in t.briefs && t.briefs[ts[i].axis] == ts[i].brief)
    && t == s.(briefs := t.briefs, retry := t.retry, launches := t.launches)
  }

  lemma LaunchesAlone(s: Session, t: Task)
    ensures LaunchAll(s, [t]) == Launch(s, t)
  {
    assert [t][1..] == [] && LaunchAll(Launch(s, t), []) == Launch(s, t);
    hide Launch;
  }

  lemma LaunchesOne(s: Session, t: Task)
    requires Launchable(s, t)
    ensures LaunchAll(s, [t]) == Launch(s, t) && Launched(s, Launch(s, t), [t])
  {
    LaunchesAlone(s, t);
    hide LaunchAll;
    assert forall a: Axis :: InTasks([t], a) <==> a == t.axis by {
      assert [t][0].axis == t.axis;
    }
    hide InTasks;
    var u := Launch(s, t);
    assert u == s.(briefs := u.briefs, retry := u.retry, launches := u.launches);
    assert u.briefs == s.briefs[t.axis := t.brief] && u.retry == s.retry - {t.axis};
    assert u.launches == s.launches[t.axis := Count(s, t.axis) + 1];
    hide Launch, Launchable;
  }

  lemma LaunchesBoth(s: Session, t: Task, u: Task)
    requires Launchable(s, t) && Launchable(s, u) && t.axis != u.axis
    ensures LaunchAll(s, [t, u]) == Launch(Launch(s, t), u) && Launched(s, Launch(Launch(s, t), u), [t, u])
  {
    var ts, m := [t, u], Launch(s, t);
    LaunchesOne(s, t);
    assert Launchable(m, u);
    LaunchesOne(m, u);
    assert ts[1..] == [u];
    hide Launch, Launchable;
    assert forall a: Axis :: (InTasks([t], a) <==> a == t.axis) && (InTasks([u], a) <==> a == u.axis) by {
      assert [t][0].axis == t.axis && [u][0].axis == u.axis;
    }
    assert forall a: Axis :: InTasks(ts, a) <==> a == t.axis || a == u.axis by {
      assert ts[0].axis == t.axis && ts[1].axis == u.axis;
    }
    hide InTasks, LaunchAll, Count;
    assert [t][0] == t && [u][0] == u;
  }

  lemma CallRecords(c: Config, s: Session, e: Event)
    requires e.SubagentCall?
    ensures var t := StepCall(c, s, e);
      if CallAllowed(c, s, e)
      then t.calls == s.calls[e.id := e.tasks.value] && Launched(s, t.(calls := s.calls), e.tasks.value)
      else t == s
  {
    if CallAllowed(c, s, e) {
      var ts := e.tasks.value;
      CallExactly(c, s, e);
      hide CallAllowed, Launchable, Launch, Launched, LaunchAll;
      if |ts| == 1 {
        assert ts == [ts[0]];
        LaunchesOne(s, ts[0]);
      } else {
        assert ts == [ts[0], ts[1]];
        LaunchesBoth(s, ts[0], ts[1]);
      }
      assert LaunchAll(s, ts).calls == s.calls by { CallsStay(s, ts); }
    }
  }

  lemma {:induction false} CallsStay(s: Session, ts: seq<Task>)
    ensures LaunchAll(s, ts).calls == s.calls
    decreases |ts|
  {
    if ts != [] { CallsStay(Launch(s, ts[0]), ts[1..]); }
  }

  // ----- settling axes -----

  /** A usable result is kept once its checkpoint is published; without one the axis may be retried, if it was launched
    * only once and its failure allows that. */
  lemma SettledExactly(c: Config, s: Session, a: Axis, p: Projected, disk: Disk)
    ensures var h := SettleOne(c, s, a, p, disk);
      var t := h.session;
      var links := c.checkpointing && AxisPoint(a) !in s.published && AxisPoint(a) in disk.links;
      var published := !c.checkpointing || (links && AxisPoint(a) in disk.clean);
      && (p.Usable? ==>
           && h.threw == !published && t.retry == s.retry && t.failures == s.failures - {a}
           && t.results == (if published then s.results[a := p.result] else s.results)
           && t.published == (if links then s.published + {AxisPoint(a)} else s.published))
      && (p.Unusable? ==>
           && !h.threw && t.results == s.results && t.published == s.published
           && t.failures == (if p.failure then s.failures + {a} else s.failures)
           && (forall x: Axis :: x in t.retry <==>
                x in s.retry || (x == a && p.retryable && a in s.launches && s.launches[a] == 1)))
      && t == s.(retry := t.retry, failures := t.failures, results := t.results, published := t.published)
  {
  }

  // ----- preflight -----

  /** Whether the first preflight reports a ready environment: the receipt is readable, a reused preflight is
    * bound to it or a new checkpoint is published, and where both axes are reused the final is theirs or is
    * aggregated and published. */
  ghost predicate EnvironmentReady(c: Config, s: Session, readable: bool, disk: Disk) {
    && readable
    && (c.reusedPreflight.Some? ==> c.reusedPreflight.value)
    && (c.reusedPreflight.None? && c.checkpointing ==>
         PreflightPoint !in s.published && PreflightPoint in disk.links && PreflightPoint in disk.clean)
    && (s.axesCompleted && BothAxes(s.results) ==>
         var f := Aggregate(s.results, c.receipt);
         && (s.final.Some? ==> s.final.value == f)
         && (s.final.None? && c.checkpointing ==>
              && FinalFits(f) && FinalPoint !in s.published && FinalPoint in disk.links && FinalPoint in disk.clean))
  }

  /** The aggregation is kept and its checkpoint published; what fails is only the publishing. */
  lemma FinalizedExactly(c: Config, s: Session, disk: Disk)
    requires s.preflight == Some(true) && s.axesCompleted && BothAxes(s.results)
    ensures var h, f := Finalize(c, s, disk), Aggregate(s.results, c.receipt);
      && h.session.final == (if s.final.Some? then s.final else Some(f))
      && (h.threw <==>
           s.final.None? && c.checkpointing
           && !(FinalFits(f) && FinalPoint !in s.published && FinalPoint in disk.links && FinalPoint in disk.clean))
      && h.session == s.(final := h.session.final, published := h.session.published, finalFile := h.session.finalFile,
           lost := h.session.lost)
  {
    hide Aggregate, FinalFits;
  }

  lemma ChecksExactly(c: Config, s: Session, readable: bool, disk: Disk)
    ensures PreflightChecks(c, s, readable, disk) <==>
      && readable && (c.reusedPreflight.Some? ==> c.reusedPreflight.value)
      && (c.reusedPreflight.None? && c.checkpointing ==>
           PreflightPoint !in s.published && PreflightPoint in disk.links && PreflightPoint in disk.clean)
  {
  }

  lemma CheckedKeeps(c: Config, s: Session, readable: bool, disk: Disk)
    ensures var t := Checked(c, s, readable, disk);
      t == s.(published := t.published) && (FinalPoint in t.published <==> FinalPoint in s.published)
  {
    hide Links;
  }

  lemma ReadyExactly(c: Config, s: Session, readable: bool, disk: Disk)
    requires s.preflight.None?
    ensures var t := AfterPreflight(c, s, readable, disk);
      && t.preflight == Some(EnvironmentReady(c, s, readable, disk))
      && (s.final.Some? || t.final.None? || (BothAxes(s.results) && t.final.value == Aggregate(s.results, c.receipt)))
      && (s.final.Some? ==> t.final == s.final)
      && t == s.(preflight := t.preflight, final := t.final, published := t.published, finalFile := t.finalFile,
           lost := t.lost)
  {
    hide Aggregate, FinalFits;
    var checked := Checked(c, s, readable, disk);
    CheckedKeeps(c, s, readable, disk);
    ChecksExactly(c, s, readable, disk);
    hide Checked, PreflightChecks;
    if PreflightChecks(c, s, readable, disk) && Complete(s) && !Contradicted(c, s) {
      FinalizedExactly(c, checked.(preflight := Some(true)), disk);
      hide Finalize;
    } else {
      hide Finalize;
      assert AfterPreflight(c, s, readable, disk) ==
        checked.(preflight := Some(PreflightChecks(c, s, readable, disk) && !Complete(s)));
      hide AfterPreflight;
    }
  }

  /** The first preflight decides for good, and moves nothing but what it reports. */
  lemma PreflightExactly(c: Config, s: Session, readable: bool, disk: Disk, size: Size)
    ensures var t := StepPreflight(c, s, readable, disk, size);
      && t.preflight == (if s.preflight.Some? then s.preflight else Some(EnvironmentReady(c, s, readable, disk)))
      && (s.preflight.Some? || s.final.Some? ==> t.final == s.final)
      && (s.final.None? && t.final.Some? ==> BothAxes(s.results) && t.final.value == Aggregate(s.results, c.receipt))
      && t == s.(preflight := t.preflight, final := t.final, published := t.published, finalFile := t.finalFile,
           lost := t.lost, used := t.used, exceeded := t.exceeded)
  {
    if s.preflight.None? { ReadyExactly(c, s, readable, disk); }
    hide Aggregate, EnvironmentReady, AfterPreflight, Fits, BytesAfter;
  }

  // ----- submitting -----

  /** What the tool's schema asks: bounded texts, and at most 64 findings. */
  ghost predicate WellShaped(f: Final) {
    && 1 <= |f.summary| <= 4_000 && |f.findings| <= 64
    && forall i :: 0 <= i < |f.findings| ==>
         1 <= |f.findings[i].summary| <= 1_000 && 1 <= |f.findings[i].evidence| <= 4_000
  }

  /** A `pass` or `changes` is accepted only in a ready environment within its budget, on both axes' results,
    * and only as the aggregation itself: its findings those of the axes and the receipt, its status theirs. */
  ghost predicate DecisionEarned(c: Config, s: Session, e: Event)
    requires e.Submit?
  {
    && !s.exceeded && s.preflight == Some(true) && e.readable && s.axesCompleted && BothAxes(s.results)
    && s.final == Some(e.params)
    && multiset(e.params.findings) == multiset(Aggregate(s.results, c.receipt).findings)
    && var one, two := s.results[Standards].status, s.results[Spec].status;
       if e.params.status.Passes? then one.AxisPass? && two.AxisPass? && c.receipt.Passed?
       else one.AxisChanges? || two.AxisChanges? || c.receipt.FailedChecks?
  }

  lemma SubmissionExactly(c: Config, s: Session, e: Event)
    requires e.Submit?
    ensures SubmitAccepted(c, s, e) <==>
      && !s.submitted && WellShaped(e.params)
      && (e.params.status.Passes? || e.params.status.Changes? ==> DecisionEarned(c, s, e))
  {
    assert ParamsOk(e.params) <==> WellShaped(e.params);
    hide ParamsOk, WellShaped, Aggregate;
    assert e.params.status.Passes? || e.params.status.Changes? ==> SubmittedFinal(s, e) == e.params;
    hide SubmittedFinal;
  }

  lemma LinkedExactly(c: Config, s: Session, f: Final, e: Event)
    requires e.Submit?
    ensures ResultLinked(c, s, f, e) <==>
      && (s.final.Some? || !c.checkpointing
           || (FinalFits(f) && FinalPoint !in s.published && FinalPoint in e.disk.links && FinalPoint in e.disk.clean))
      && s.resultFile.None? && e.resultLinked
  {
    hide FinalFits;
  }

  /** What an accepted submission writes: its result, once and only after the final's checkpoint; it counts as submitted
    * when the file was written cleanly. */
  lemma SubmissionRecords(c: Config, s: Session, e: Event)
    requires e.Submit?
    ensures var t := StepSubmit(c, s, e);
      var f := SubmittedFinal(s, e);
      var stored := s.final.Some? || !c.checkpointing
          || (FinalFits(f) && FinalPoint !in s.published && FinalPoint in e.disk.links && FinalPoint in e.disk.clean);
      var linked := stored && s.resultFile.None? && e.resultLinked;
      if !SubmitAccepted(c, s, e) then t == s
      else
        && t.resultFile == (if linked then Some(Submission(f, s.exceeded)) else s.resultFile)
        && t.submitted == (s.submitted || (linked && e.resultClean))
        && t.final == s.final && t.results == s.results && t.preflight == s.preflight && t.calls == s.calls
        && (!(linked && e.resultClean) ==> t.used == s.used && t.exceeded == s.exceeded)
  {
    LinkedExactly(c, s, SubmittedFinal(s, e), e);
    hide SubmitAccepted, SubmittedFinal, FinalFits, ResultLinked, Links, Fits, BytesAfter;
  }

  /** The summary of a blocked review: its own, unless axes failed; then its first part, and the record of the failures
    * after it, all within 4,000 units. */
  lemma BlockedSummaryExactly(summary: Text, failures: set<Axis>, audit: Text)
    ensures var t, record := BlockedSummary(summary, failures, audit), Ascii("Harness Review Axis failure: ") + audit;
      if failures == {} then t == summary
      else if |record| >= 3_999 || summary == [] then t == if |record| <= 4_000 then record else record[..4_000]
      else
        var kept := if |summary| <= 3_999 - |record| then |summary| else 3_999 - |record|;
        |t| == kept + 1 + |record| <= 4_000 && t[..kept] == summary[..kept] && t[kept] == 10 && t[kept + 1..] == record
  {
    hide Ascii;
  }
}
