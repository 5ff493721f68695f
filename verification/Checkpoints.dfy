module Checkpoints {
  // Reusing a Reviewer's checkpoints: which files of a settled Attempt a fresh one may consume, the check made
  // again before they are consumed, and that no checkpoint is ever consumed twice.

  import opened Options
  import opened Utf16
  import opened Ledger
  import Handoffs
  import ReviewerTools

  // ----- checkpoint files -----

  /** `bound` lists the nine identity fields a consumer must share. */
  datatype Identity = Identity(sourceAttemptId: Text, jobRevision: int, bound: seq<Text>)

  datatype StageResult =
    | PreflightResult(validationReceiptDigest: Digest)
    | AxisStageResult
    | ValidationResult(status: ReceiptStatus)
    | FinalResult(status_: ReviewStatus)

  /** `wellFormed` is the verdict on fields, version, time, result digest and the result's own contract. */
  datatype Checkpoint = Checkpoint(stage: Stage, identity: Identity, result: StageResult, wellFormed: bool)

  datatype File = File(text: Text, immutable: bool)
  type Directory = map<Stage, File>

  /** A settled Attempt's private directory. */
  datatype Source = Source(root: Text, identity: Identity, files: Directory)

  const STAGES := [PreflightStage, StandardsStage, SpecStage, ValidationStage, FinalStage]

  function FileName(s: Stage): Text {
    match s
    case PreflightStage => Ascii("/reviewer-preflight.json")
    case StandardsStage => Ascii("/standards-axis.json")
    case SpecStage => Ascii("/spec-axis.json")
    case ValidationStage => Ascii("/validation-receipt.json")
    case FinalStage => Ascii("/reviewer-final.json")
  }

  predicate ResultFits(s: Stage, r: StageResult) {
    match s
    case PreflightStage => r.PreflightResult?
    case ValidationStage => r.ValidationResult?
    case FinalStage => r.FinalResult?
    case _ => r.AxisStageResult?
  }

  /** `assertReviewerCheckpoint` */
  predicate Asserted(c: Checkpoint, expected: Identity, s: Stage) {
    c.wellFormed && c.identity == expected && c.stage == s && ResultFits(s, c.result)
  }

  predicate Compatible(c: Checkpoint, consumer: Identity) {
    c.identity.bound == consumer.bound
  }

  predicate ReusableResult(r: StageResult) {
    match r
    case ValidationResult(status) => !status.ReceiptInfrastructure?
    case FinalResult(status) => status.Passes? || status.Changes?
    case _ => true
  }

  /** Reading one stage of a source: its file, private and unchangeable, holding a checkpoint of that Attempt
    * and stage. */
  function ReadStage(parse: Text -> Option<Checkpoint>, src: Source, s: Stage): Option<Checkpoint> {
    if s !in src.files || !src.files[s].immutable then None
    else
      var c := parse(src.files[s].text);
      if c.None? || !Asserted(c.value, src.identity, s) then None else c
  }

  function FileText(src: Source, s: Stage): Text {
    if s in src.files then src.files[s].text else []
  }

  function BindingOf(src: Source, s: Stage): Binding {
    Binding(s, src.root + FileName(s), OfText(FileText(src, s)), src.identity.sourceAttemptId)
  }

  /** Whether a stage may be reused at all. */
  predicate Offered(parse: Text -> Option<Checkpoint>, src: Source, consumer: Identity, excluded: set<Digest>,
      s: Stage) {
    var c := ReadStage(parse, src, s);
    c.Some? && OfText(FileText(src, s)) !in excluded && Compatible(c.value, consumer) && ReusableResult(c.value.result)
  }

  // ----- findReusableReviewerCheckpoints -----

  function Bindings(parse: Text -> Option<Checkpoint>, src: Source, consumer: Identity, excluded: set<Digest>,
      stages: seq<Stage>): (bs: seq<Binding>)
    ensures |bs| <= |stages|
  {
    if stages == [] then []
    else
      var rest := Bindings(parse, src, consumer, excluded, stages[..|stages| - 1]);
      var s := stages[|stages| - 1];
      if Offered(parse, src, consumer, excluded, s) then rest + [BindingOf(src, s)] else rest
  }

  lemma {:induction false} BindingsAre(parse: Text -> Option<Checkpoint>, src: Source, consumer: Identity,
      excluded: set<Digest>, stages: seq<Stage>, b: Binding)
    ensures b in Bindings(parse, src, consumer, excluded, stages)
      <==> b.stage in stages && Offered(parse, src, consumer, excluded, b.stage) && b == BindingOf(src, b.stage)
  {
    hide Offered;
    if stages != [] {
      var n := |stages| - 1;
      BindingsAre(parse, src, consumer, excluded, stages[..n], b);
      assert stages == stages[..n] + [stages[n]];
    }
  }

  function Without(bs: seq<Binding>, s: Stage): (r: seq<Binding>)
    ensures |r| <= |bs| && forall b :: b in r <==> b in bs && b.stage != s
    decreases |bs|
  {
    if bs == [] then []
    else
      assert bs == bs[..|bs| - 1] + [bs[|bs| - 1]];
      var last := bs[|bs| - 1];
      if last.stage == s then Without(bs[..|bs| - 1], s) else Without(bs[..|bs| - 1], s) + [last]
  }

  predicate HasStage(bs: seq<Binding>, s: Stage) {
    exists i :: 0 <= i < |bs| && bs[i].stage == s
  }

  function StageBinding(bs: seq<Binding>, s: Stage): (r: Option<Binding>)
    ensures r.Some? <==> HasStage(bs, s)
    ensures r.Some? ==> r.value in bs && r.value.stage == s
  {
    if bs == [] then None
    else if bs[0].stage == s then Some(bs[0])
    else
      assert forall i :: 0 < i < |bs| ==> bs[i] == bs[1..][i - 1];
      StageBinding(bs[1..], s)
  }

  /** The preflight checkpoint's validation digest, where there is one. */
  function PreflightDigest(parse: Text -> Option<Checkpoint>, src: Source): Option<Digest> {
    var c := ReadStage(parse, src, PreflightStage);
    if c.Some? && c.value.result.PreflightResult? then Some(c.value.result.validationReceiptDigest) else None
  }

  /** Dependencies: a preflight stays only with the validation it names, a final only with validation and both axes. */
  function Prune(parse: Text -> Option<Checkpoint>, src: Source, bs: seq<Binding>): seq<Binding> {
    var validation := StageBinding(bs, ValidationStage);
    var kept :=
      if HasStage(bs, PreflightStage) && (validation.None?
          || PreflightDigest(parse, src) != Some(validation.value.digest))
      then Without(bs, PreflightStage) else bs;
    if HasStage(kept, FinalStage) && !(HasStage(kept, ValidationStage) && HasStage(kept, StandardsStage)
        && HasStage(kept, SpecStage))
    then Without(kept, FinalStage) else kept
  }

  function Found(parse: Text -> Option<Checkpoint>, src: Source, consumer: Identity,
      excluded: set<Digest>): seq<Binding> {
    Prune(parse, src, Bindings(parse, src, consumer, excluded, STAGES))
  }

  lemma NoBindings(parse: Text -> Option<Checkpoint>, src: Source, consumer: Identity, excluded: set<Digest>)
    ensures Bindings(parse, src, consumer, excluded, STAGES[..0]) == []
  {
  }

  lemma NextBindings(parse: Text -> Option<Checkpoint>, src: Source, consumer: Identity, excluded: set<Digest>, i: nat)
    requires i < |STAGES|
    ensures var bs, s := Bindings(parse, src, consumer, excluded, STAGES[..i]), STAGES[i];
      Bindings(parse, src, consumer, excluded, STAGES[..i + 1])
        == if Offered(parse, src, consumer, excluded, s) then bs + [BindingOf(src, s)] else bs
  {
    assert STAGES[..i + 1][..i] == STAGES[..i];
    hide Offered, BindingOf;
  }

  method FindReusable(parse: Text -> Option<Checkpoint>, src: Source, consumer: Identity,
      excluded: set<Digest>) returns (bs: seq<Binding>)
    ensures bs == Found(parse, src, consumer, excluded)
  {
    hide Bindings;
    bs := [];
    assert Bindings(parse, src, consumer, excluded, STAGES[..0]) == [] by {
      NoBindings(parse, src, consumer, excluded);
    }
    var preflightDigest: Option<Digest> := None;
    for i := 0 to |STAGES|
      invariant bs == Bindings(parse, src, consumer, excluded, STAGES[..i])
      invariant i > 0 ==> (preflightDigest.Some? <==> HasStage(bs, PreflightStage))
      invariant i == 0 ==> preflightDigest.None?
      invariant preflightDigest.Some? ==> preflightDigest == PreflightDigest(parse, src)
    {
      var s := STAGES[i];
      NextBindings(parse, src, consumer, excluded, i);
      ghost var before := bs;
      if s in src.files && src.files[s].immutable {
        var c := parse(src.files[s].text);
        if c.Some? && Asserted(c.value, src.identity, s) {
          var binding := Binding(s, src.root + FileName(s), OfText(src.files[s].text), src.identity.sourceAttemptId);
          if binding.digest !in excluded && Compatible(c.value, consumer) && ReusableResult(c.value.result) {
            bs := bs + [binding];
            if s.PreflightStage? { preflightDigest := Some(c.value.result.validationReceiptDigest); }
          }
        }
      }
      assert bs == if Offered(parse, src, consumer, excluded, s) then before + [BindingOf(src, s)] else before;
      StageAppended(before, bs, s);
    }
    assert STAGES[..|STAGES|] == STAGES;
    var validation := StageBinding(bs, ValidationStage);
    if preflightDigest.Some? && (validation.None?
        || preflightDigest != Some(validation.value.digest)) { bs := Without(bs, PreflightStage); }
    if HasStage(bs, FinalStage) && !(HasStage(bs, ValidationStage) && HasStage(bs, StandardsStage)
        && HasStage(bs, SpecStage)) {
      bs := Without(bs, FinalStage);
    }
  }

  lemma StageAppended(before: seq<Binding>, after: seq<Binding>, s: Stage)
    requires after == before || (|after| == |before| + 1 && after[..|before|] == before && after[|before|].stage == s)
    ensures forall t: Stage :: HasStage(after, t) <==> HasStage(before, t) || (t == s && after != before)
  {
    forall t: Stage ensures HasStage(after, t) <==> HasStage(before, t) || (t == s && after != before) {
      if HasStage(before, t) {
        var i :| 0 <= i < |before| && before[i].stage == t;
        assert after[i] == before[i];
      }
      if HasStage(after, t) {
        var i :| 0 <= i < |after| && after[i].stage == t;
        assert i < |before| ==> before[i] == after[i];
      }
      if after != before { assert after[|before|].stage == s; }
    }
  }

  // ----- verifyReviewerCheckpoints -----

  function SourceOf(sources: seq<Source>, id: Text): Option<Source> {
    if sources == [] then None
    else if sources[0].identity.sourceAttemptId == id then Some(sources[0])
    else SourceOf(sources[1..], id)
  }

  predicate BindingVerifies(parse: Text -> Option<Checkpoint>, sources: seq<Source>, consumer: Identity, b: Binding) {
    var src := SourceOf(sources, b.sourceAttemptId);
    && src.Some? && b.path == src.value.root + FileName(b.stage)
    && b.stage in src.value.files
    && src.value.files[b.stage].immutable
    && OfText(src.value.files[b.stage].text) == b.digest
    && var c := ReadStage(parse, src.value, b.stage);
       c.Some? && c.value.identity.sourceAttemptId == b.sourceAttemptId && Compatible(c.value, consumer)
           && ReusableResult(c.value.result)
  }

  predicate FewAndDistinct(bs: seq<Binding>) {
    |bs| <= 5 && Apart(bs)
  }

  method VerifyOne(parse: Text -> Option<Checkpoint>, sources: seq<Source>, consumer: Identity,
      b: Binding) returns (record: Option<Checkpoint>)
    ensures record.Some? <==> BindingVerifies(parse, sources, consumer, b)
    ensures record.Some? ==> record.value.stage == b.stage && record.value.identity.sourceAttemptId == b.sourceAttemptId
  {
    var src := SourceOf(sources, b.sourceAttemptId);
    if src.None? { return None; }
    if b.path != src.value.root + FileName(b.stage) { return None; }
    if b.stage !in src.value.files || !src.value.files[b.stage].immutable { return None; }
    if OfText(src.value.files[b.stage].text) != b.digest { return None; }
    var c := ReadStage(parse, src.value, b.stage);
    if c.None? || c.value.identity.sourceAttemptId != b.sourceAttemptId || !Compatible(c.value, consumer)
        || !ReusableResult(c.value.result) {
      return None;
    }
    return c;
  }

  method VerifyCheckpoints(parse: Text -> Option<Checkpoint>, bs: seq<Binding>, sources: seq<Source>,
      consumer: Identity)
      returns (ok: bool, records: seq<Checkpoint>)
    ensures ok == (FewAndDistinct(bs) && forall i :: 0 <= i < |bs| ==> BindingVerifies(parse, sources, consumer, bs[i]))
    ensures ok ==> |records| == |bs| && forall i :: 0 <= i < |bs| ==> records[i].stage == bs[i].stage
  {
    hide BindingVerifies;
    records := [];
    if !FewAndDistinct(bs) { return false, []; }
    for i := 0 to |bs|
      invariant |records| == i && forall k :: 0 <= k < i ==> records[k].stage == bs[k].stage
      invariant forall k :: 0 <= k < i ==> BindingVerifies(parse, sources, consumer, bs[k])
    {
      var record := VerifyOne(parse, sources, consumer, bs[i]);
      if record.None? { return false, []; }
      records := records + [record.value];
    }
    ok := true;
  }

  // ----- what reuse guarantees -----

  predicate DistinctStages(stages: seq<Stage>) {
    forall i, j :: 0 <= i < j < |stages| ==> stages[i] != stages[j]
  }

  /** Different stages of one source never share a digest: equal texts parse alike, and a checkpoint names its stage. */
  lemma OfferedDiffer(parse: Text -> Option<Checkpoint>, src: Source, consumer: Identity, excluded: set<Digest>,
      s: Stage, t: Stage)
    requires s != t
      && Offered(parse, src, consumer, excluded, s)
      && Offered(parse, src, consumer, excluded, t)
    ensures BindingOf(src, s).digest != BindingOf(src, t).digest
  {
  }

  predicate Apart(bs: seq<Binding>) {
    forall i, j :: 0 <= i < j < |bs| ==> bs[i].stage != bs[j].stage && bs[i].digest != bs[j].digest
  }

  lemma ApartAppend(bs: seq<Binding>, b: Binding)
    requires Apart(bs) && forall x :: x in bs ==> x.stage != b.stage && x.digest != b.digest
    ensures Apart(bs + [b])
  {
  }

  lemma {:induction false} BindingsDistinct(parse: Text -> Option<Checkpoint>, src: Source, consumer: Identity,
      excluded: set<Digest>, stages: seq<Stage>)
    requires DistinctStages(stages)
    ensures Apart(Bindings(parse, src, consumer, excluded, stages))
    decreases |stages|
  {
    hide Offered, Apart;
    if stages == [] {
      assert Apart([]) by { NothingApart(); }
    } else {
      var n := |stages| - 1;
      BindingsDistinct(parse, src, consumer, excluded, stages[..n]);
      var rest := Bindings(parse, src, consumer, excluded, stages[..n]);
      if Offered(parse, src, consumer, excluded, stages[n]) {
        forall b | b in rest ensures b.stage != stages[n] && b.digest != BindingOf(src, stages[n]).digest {
          BindingsAre(parse, src, consumer, excluded, stages[..n], b);
          OfferedDiffer(parse, src, consumer, excluded, b.stage, stages[n]);
        }
        ApartAppend(rest, BindingOf(src, stages[n]));
      }
    }
  }

  lemma NothingApart()
    ensures Apart([])
  {
  }

  lemma {:induction false} WithoutDistinct(bs: seq<Binding>, s: Stage)
    requires Apart(bs)
    ensures Apart(Without(bs, s))
    decreases |bs|
  {
    if bs != [] {
      var n := |bs| - 1;
      assert Apart(bs[..n]);
      WithoutDistinct(bs[..n], s);
      forall b | b in Without(bs[..n], s) ensures b.stage != bs[n].stage && b.digest != bs[n].digest {
        assert b in bs[..n];
        var k :| 0 <= k < n && bs[..n][k] == b;
        assert bs[k] == b;
      }
      ApartAppend(Without(bs[..n], s), bs[n]);
    }
  }

  lemma WithoutKeeps(bs: seq<Binding>, s: Stage, t: Stage)
    requires s != t
    ensures HasStage(Without(bs, s), t) <==> HasStage(bs, t)
    ensures !HasStage(Without(bs, s), s)
  {
    if HasStage(bs, t) {
      var i :| 0 <= i < |bs| && bs[i].stage == t;
      assert bs[i] in Without(bs, s);
      var j :| 0 <= j < |Without(bs, s)| && Without(bs, s)[j] == bs[i];
    }
    if HasStage(Without(bs, s), t) {
      var i :| 0 <= i < |Without(bs, s)| && Without(bs, s)[i].stage == t;
      assert Without(bs, s)[i] in bs;
      var j :| 0 <= j < |bs| && bs[j] == Without(bs, s)[i];
    }
  }

  /** Every binding found is one offered, of its own stage, and no two share a stage or a digest. */
  lemma FoundIsOffered(parse: Text -> Option<Checkpoint>, src: Source, consumer: Identity, excluded: set<Digest>)
    ensures var bs := Found(parse, src, consumer, excluded);
      FewAndDistinct(bs) && forall b ::
        b in bs ==> Offered(parse, src, consumer, excluded, b.stage) && b == BindingOf(src, b.stage)
  {
    var all := Bindings(parse, src, consumer, excluded, STAGES);
    assert DistinctStages(STAGES) && |STAGES| == 5;
    BindingsDistinct(parse, src, consumer, excluded, STAGES);
    WithoutDistinct(all, PreflightStage);
    WithoutDistinct(all, FinalStage);
    WithoutDistinct(Without(all, PreflightStage), FinalStage);
    var bs := Found(parse, src, consumer, excluded);
    assert Apart(bs) && |bs| <= 5;
    forall b | b in bs ensures Offered(parse, src, consumer, excluded, b.stage) && b == BindingOf(src, b.stage) {
      assert b in all;
      BindingsAre(parse, src, consumer, excluded, STAGES, b);
      hide Offered, BindingOf;
    }
    hide Bindings, Offered, BindingOf, PreflightDigest, Found;
  }

  /** The bindings found are dependency-closed: a final comes with validation and both axes, and a preflight
    * with the very validation it was made from. */
  lemma FoundIsClosed(parse: Text -> Option<Checkpoint>, src: Source, consumer: Identity, excluded: set<Digest>)
    ensures var bs := Found(parse, src, consumer, excluded);
      && (HasStage(bs, FinalStage) ==>
           HasStage(bs, ValidationStage) && HasStage(bs, StandardsStage) && HasStage(bs, SpecStage))
      && (HasStage(bs, PreflightStage) ==>
           StageBinding(bs, ValidationStage).Some? && PreflightDigest(parse,
               src) == Some(StageBinding(bs, ValidationStage).value.digest))
  {
    var all := Bindings(parse, src, consumer, excluded, STAGES);
    forall bs: seq<Binding>, s: Stage, t: Stage | s != t
      ensures (HasStage(Without(bs, s), t) <==> HasStage(bs, t)) && !HasStage(Without(bs, s), s)
    {
      WithoutKeeps(bs, s, t);
    }
    FoundIsOffered(parse, src, consumer, excluded);
    var bs := Found(parse, src, consumer, excluded);
    if HasStage(bs, ValidationStage) && HasStage(all, ValidationStage) {
      assert StageBinding(bs, ValidationStage).value == BindingOf(src, ValidationStage);
      assert StageBinding(all, ValidationStage).value == BindingOf(src, ValidationStage);
    }
    hide Bindings, Offered, BindingOf, PreflightDigest, Without;
  }

  /** A file that holds a checkpoint of the source's own Attempt and of this stage. */
  ghost predicate Holds(parse: Text -> Option<Checkpoint>, src: Source, s: Stage, c: Checkpoint) {
    && s in src.files && src.files[s].immutable && parse(src.files[s].text) == Some(c)
    && c.wellFormed && c.stage == s && c.identity == src.identity
  }

  /** A checkpoint a fresh Attempt may build on: a preflight, an axis, a validation that ran, or a decision. */
  predicate WorthReusing(c: Checkpoint) {
    match c.stage
    case PreflightStage => c.result.PreflightResult?
    case StandardsStage => c.result.AxisStageResult?
    case SpecStage => c.result.AxisStageResult?
    case ValidationStage => c.result == ValidationResult(ReceiptPassed)
      || c.result == ValidationResult(ReceiptFailedChecks)
    case FinalStage => c.result == FinalResult(Passes) || c.result == FinalResult(Changes)
  }

  /** The stage's file holds one, with the consumer's bound identity, and was not consumed before. */
  ghost predicate MayReuse(parse: Text -> Option<Checkpoint>, src: Source, consumer: Identity, excluded: set<Digest>,
      s: Stage) {
    exists c :: Holds(parse, src, s, c) && WorthReusing(c) && c.identity.bound == consumer.bound
      && OfText(src.files[s].text) !in excluded
  }

  lemma OfferedExactly(parse: Text -> Option<Checkpoint>, src: Source, consumer: Identity, excluded: set<Digest>,
      s: Stage)
    ensures Offered(parse, src, consumer, excluded, s) <==> MayReuse(parse, src, consumer, excluded, s)
  {
    if s in src.files && parse(src.files[s].text).Some? {
      var c := parse(src.files[s].text).value;
      assert Asserted(c, src.identity, s) ==> (ReusableResult(c.result) <==> WorthReusing(c));
      assert WorthReusing(c) && c.stage == s ==> ResultFits(s, c.result);
      hide ReusableResult, WorthReusing, ResultFits;
      assert Offered(parse, src, consumer, excluded, s) ==> Holds(parse, src, s, c);
    }
  }

  /** The preflight was made from the very validation the source holds. */
  ghost predicate SameValidation(parse: Text -> Option<Checkpoint>, src: Source) {
    ValidationStage in src.files
      && exists c ::
           Holds(parse, src, PreflightStage, c) && c.result == PreflightResult(OfText(src.files[ValidationStage].text))
  }

  /** Exactly which stages are found: validation and each axis whenever they may be reused, a preflight with its own
    * validation, and a final with validation and both axes. */
  ghost predicate FoundStage(parse: Text -> Option<Checkpoint>, src: Source, consumer: Identity, excluded: set<Digest>,
      s: Stage) {
    && MayReuse(parse, src, consumer, excluded, s)
    && (s.PreflightStage? ==> MayReuse(parse, src, consumer, excluded, ValidationStage) && SameValidation(parse, src))
    && (s.FinalStage? ==>
         && MayReuse(parse, src, consumer, excluded, ValidationStage)
         && MayReuse(parse, src, consumer, excluded, StandardsStage)
         && MayReuse(parse, src, consumer, excluded, SpecStage))
  }

  lemma AllBindings(parse: Text -> Option<Checkpoint>, src: Source, consumer: Identity, excluded: set<Digest>, s: Stage)
    ensures var all := Bindings(parse, src, consumer, excluded, STAGES);
      && (HasStage(all, s) <==> MayReuse(parse, src, consumer, excluded, s))
      && (HasStage(all, s) ==> StageBinding(all, s) == Some(BindingOf(src, s)))
  {
    var all := Bindings(parse, src, consumer, excluded, STAGES);
    OfferedExactly(parse, src, consumer, excluded, s);
    BindingsAre(parse, src, consumer, excluded, STAGES, BindingOf(src, s));
    assert STAGES[0].PreflightStage? && STAGES[1].StandardsStage? && STAGES[2].SpecStage? && STAGES[3].ValidationStage?
      && STAGES[4].FinalStage?;
    hide Bindings, Offered, MayReuse;
    if HasStage(all, s) {
      var b := StageBinding(all, s).value;
      BindingsAre(parse, src, consumer, excluded, STAGES, b);
    }
  }

  lemma PreflightNames(parse: Text -> Option<Checkpoint>, src: Source)
    requires ValidationStage in src.files
    ensures PreflightDigest(parse, src) == Some(OfText(src.files[ValidationStage].text)) <==> SameValidation(parse, src)
  {
    var c := ReadStage(parse, src, PreflightStage);
    assert c.Some? ==> Holds(parse, src, PreflightStage, c.value);
  }

  lemma StageGoes(bs: seq<Binding>, s: Stage)
    ensures !HasStage(Without(bs, s), s)
    ensures forall t: Stage :: t != s ==> (HasStage(Without(bs, s), t) <==> HasStage(bs, t))
  {
    WithoutKeeps(bs, s, if s == FinalStage then PreflightStage else FinalStage);
    forall t: Stage | t != s ensures HasStage(Without(bs, s), t) <==> HasStage(bs, t) {
      WithoutKeeps(bs, s, t);
    }
  }

  /** What pruning leaves of a list, stage by stage. */
  lemma PruneStages(parse: Text -> Option<Checkpoint>, src: Source, bs: seq<Binding>, s: Stage)
    ensures var names := HasStage(bs, ValidationStage)
        && PreflightDigest(parse, src) == Some(StageBinding(bs, ValidationStage).value.digest);
      HasStage(Prune(parse, src, bs), s) <==>
        && HasStage(bs, s) && (s.PreflightStage? ==> names)
        && (s.FinalStage? ==>
             HasStage(bs, ValidationStage) && HasStage(bs, StandardsStage) && HasStage(bs, SpecStage))
  {
    StageGoes(bs, PreflightStage);
    StageGoes(bs, FinalStage);
    StageGoes(Without(bs, PreflightStage), FinalStage);
    hide Without, HasStage, PreflightDigest;
  }

  lemma FoundExactly(parse: Text -> Option<Checkpoint>, src: Source, consumer: Identity, excluded: set<Digest>)
    ensures var bs := Found(parse, src, consumer, excluded);
      && (forall s: Stage :: HasStage(bs, s) <==> FoundStage(parse, src, consumer, excluded, s))
      && (forall b :: b in bs ==>
           && b.stage in src.files && b.path == src.root + FileName(b.stage)
           && b.digest == OfText(src.files[b.stage].text) && b.sourceAttemptId == src.identity.sourceAttemptId)
  {
    var all := Bindings(parse, src, consumer, excluded, STAGES);
    FoundIsOffered(parse, src, consumer, excluded);
    forall s: Stage ensures HasStage(all, s) <==> MayReuse(parse, src, consumer, excluded, s) {
      AllBindings(parse, src, consumer, excluded, s);
    }
    forall s: Stage { OfferedExactly(parse, src, consumer, excluded, s); }
    AllBindings(parse, src, consumer, excluded, ValidationStage);
    assert forall s: Stage :: MayReuse(parse, src, consumer, excluded, s) ==> s in src.files;
    if ValidationStage in src.files { PreflightNames(parse, src); }
    hide Offered, Bindings, HasStage, MayReuse, SameValidation, PreflightDigest, FileName, Prune;
    forall s: Stage ensures HasStage(Found(parse, src, consumer, excluded), s)
        <==> FoundStage(parse, src, consumer, excluded, s) {
      PruneStages(parse, src, all, s);
    }
    hide Found;
  }

  /** On unchanged files every binding found passes the verification made before it is consumed. */
  lemma FoundVerifies(parse: Text -> Option<Checkpoint>, src: Source, consumer: Identity, excluded: set<Digest>)
    ensures var bs := Found(parse, src, consumer, excluded);
      FewAndDistinct(bs) && forall i :: 0 <= i < |bs| ==> BindingVerifies(parse, [src], consumer, bs[i])
  {
    FoundIsOffered(parse, src, consumer, excluded);
    var bs := Found(parse, src, consumer, excluded);
    forall i | 0 <= i < |bs| ensures BindingVerifies(parse, [src], consumer, bs[i]) {
      assert bs[i] in bs;
    }
    hide Found;
  }

  /** The i-th source is the first of its Attempt. */
  predicate FirstSource(sources: seq<Source>, id: Text, i: nat) {
    && i < |sources| && sources[i].identity.sourceAttemptId == id
    && forall j :: 0 <= j < i ==> sources[j].identity.sourceAttemptId != id
  }

  lemma {:induction false} SourceOfExactly(sources: seq<Source>, id: Text)
    ensures SourceOf(sources, id).Some? ==> exists i: nat :: FirstSource(sources, id, i)
    ensures forall i: nat :: FirstSource(sources, id, i) ==> SourceOf(sources, id) == Some(sources[i])
  {
    if sources != [] {
      if sources[0].identity.sourceAttemptId == id {
        assert FirstSource(sources, id, 0);
      } else {
        var rest := sources[1..];
        SourceOfExactly(rest, id);
        forall i: nat | FirstSource(rest, id, i) ensures FirstSource(sources, id, i + 1) {
          assert forall j :: 0 < j <= i ==> sources[j] == rest[j - 1];
        }
        forall i: nat | FirstSource(sources, id, i) ensures FirstSource(rest, id, i - 1) {
          assert forall j :: 0 <= j < i ==> rest[j] == sources[j + 1];
        }
      }
    }
  }

  /** The source's file for the stage, still under that path and digest, holds a checkpoint the consumer may
    * build on. */
  ghost predicate StillThere(parse: Text -> Option<Checkpoint>, src: Source, consumer: Identity, b: Binding) {
    && b.path == src.root + FileName(b.stage) && b.stage in src.files && OfText(src.files[b.stage].text) == b.digest
    && exists c :: Holds(parse, src, b.stage, c) && WorthReusing(c) && c.identity.bound == consumer.bound
  }

  /** A binding verifies exactly when the first source of its Attempt still has what it names. */
  lemma VerifiesExactly(parse: Text -> Option<Checkpoint>, sources: seq<Source>, consumer: Identity, b: Binding)
    ensures BindingVerifies(parse, sources, consumer, b) <==>
      exists i: nat :: FirstSource(sources, b.sourceAttemptId, i) && StillThere(parse, sources[i], consumer, b)
  {
    SourceOfExactly(sources, b.sourceAttemptId);
    if SourceOf(sources, b.sourceAttemptId).Some? {
      var i: nat :| FirstSource(sources, b.sourceAttemptId, i);
      ThereExactly(parse, sources[i], consumer, b);
      hide StillThere, Holds;
    }
    hide StillThere, Compatible, ReusableResult, ReadStage, FileName;
  }

  lemma ThereExactly(parse: Text -> Option<Checkpoint>, src: Source, consumer: Identity, b: Binding)
    ensures StillThere(parse, src, consumer, b) <==>
      && b.path == src.root + FileName(b.stage) && b.stage in src.files && src.files[b.stage].immutable
      && OfText(src.files[b.stage].text) == b.digest
      && var c := ReadStage(parse, src, b.stage);
         c.Some? && Compatible(c.value, consumer) && ReusableResult(c.value.result)
  {
    if b.stage in src.files && parse(src.files[b.stage].text).Some? {
      var c := parse(src.files[b.stage].text).value;
      assert Asserted(c, src.identity, b.stage) ==> (ReusableResult(c.result) <==> WorthReusing(c));
      assert WorthReusing(c) && c.stage == b.stage ==> ResultFits(b.stage, c.result);
      hide ReusableResult, WorthReusing, ResultFits, FileName;
      if ReadStage(parse, src, b.stage).Some? { assert Holds(parse, src, b.stage, c); }
    }
  }

  /** A Reviewer whose reused inputs are the bindings found starts from dependency-closed inputs. */
  lemma FoundStartsClosed(parse: Text -> Option<Checkpoint>, src: Source, consumer: Identity, excluded: set<Digest>,
      c: ReviewerTools.Config)
    requires c.reusedFinal.Some? ==> HasStage(Found(parse, src, consumer, excluded), FinalStage)
    requires HasStage(Found(parse, src, consumer, excluded), ValidationStage) ==> c.reusedValidation
    requires HasStage(Found(parse, src, consumer, excluded), StandardsStage) ==> ReviewerTools.Standards in c.reused
    requires HasStage(Found(parse, src, consumer, excluded), SpecStage) ==> ReviewerTools.Spec in c.reused
    ensures ReviewerTools.DependencyClosed(c)
  {
    FoundIsClosed(parse, src, consumer, excluded);
    hide Found, HasStage;
  }

  // ----- consumed at most once -----

  /** The digests of a list of Attempts, pushed in order. */
  method CollectConsumed(attempts: seq<Attempt>) returns (ds: seq<Digest>)
    ensures ds == Consumed(attempts)
  {
    ds := [];
    for i := 0 to |attempts|
      invariant ds == Consumed(attempts[..i])
    {
      assert attempts[..i + 1][..i] == attempts[..i];
      for j := 0 to |attempts[i].inputs|
        invariant ds == Consumed(attempts[..i]) + BindingDigests(attempts[i].inputs)[..j]
      {
        ds := ds + [attempts[i].inputs[j].digest];
      }
      assert BindingDigests(attempts[i].inputs)[..|attempts[i].inputs|] == BindingDigests(attempts[i].inputs);
    }
    assert attempts[..|attempts|] == attempts;
  }

  /** The checkpoint part of `assertJobInvariant`, as its loops check it. */
  method CheckInputs(attempts: seq<Attempt>, active: Option<Attempt>) returns (ok: bool)
    ensures ok <==>
      && (forall i ::
           0 <= i < |AllAttempts(attempts, active)| ==> InputsOk(AllAttempts(attempts, active)[i], attempts))
      && Distinct(Consumed(AllAttempts(attempts, active)))
  {
    var all := AllAttempts(attempts, active);
    hide InputsOk;
    for i := 0 to |all|
      invariant forall k :: 0 <= k < i ==> InputsOk(all[k], attempts)
    {
      if !InputsOk(all[i], attempts) { return false; }
    }
    var ds := CollectConsumed(all);
    return Distinct(ds);
  }

  function DigestSet(ds: seq<Digest>): set<Digest> {
    set d | d in ds
  }

  /** How a fresh Attempt gets its inputs: none, or what is found with every consumed digest excluded. */
  ghost predicate Prepared(parse: Text -> Option<Checkpoint>, before: seq<Attempt>, a: Attempt) {
    a.inputs == [] || exists src, consumer :: a.inputs == Found(parse, src, consumer, DigestSet(Consumed(before)))
  }

  /** The settled Attempts of one job, oldest first. */
  ghost predicate AttemptRun(parse: Text -> Option<Checkpoint>, attempts: seq<Attempt>) {
    forall i :: 0 <= i < |attempts| ==> Prepared(parse, attempts[..i], attempts[i])
  }

  lemma DistinctAppend(xs: seq<Digest>, ys: seq<Digest>)
    requires Distinct(xs) && Distinct(ys) && forall y :: y in ys ==> y !in xs
    ensures Distinct(xs + ys)
  {
    forall i, j | 0 <= i < j < |xs + ys| ensures (xs + ys)[i] != (xs + ys)[j] {
      if i < |xs| && |xs| <= j { assert ys[j - |xs|] in ys; }
    }
  }

  lemma FoundIsFresh(parse: Text -> Option<Checkpoint>, src: Source, consumer: Identity, excluded: set<Digest>)
    ensures var ds := BindingDigests(Found(parse, src, consumer, excluded));
      Distinct(ds) && forall d :: d in ds ==> d !in excluded
  {
    FoundIsOffered(parse, src, consumer, excluded);
    var bs := Found(parse, src, consumer, excluded);
    hide Found;
    forall d | d in BindingDigests(bs) ensures d !in excluded {
      var i :| 0 <= i < |bs| && bs[i].digest == d;
      assert bs[i] in bs;
    }
  }

  lemma ConsumedLast(front: seq<Attempt>, a: Attempt)
    ensures Consumed(front + [a]) == Consumed(front) + BindingDigests(a.inputs)
  {
    assert (front + [a])[..|front|] == front;
  }

  lemma OneMoreAttempt(parse: Text -> Option<Checkpoint>, front: seq<Attempt>, a: Attempt)
    requires Distinct(Consumed(front)) && Prepared(parse, front, a)
    ensures Distinct(Consumed(front + [a]))
  {
    hide Found, Consumed;
    ConsumedLast(front, a);
    if a.inputs != [] {
      var src, consumer :| a.inputs == Found(parse, src, consumer, DigestSet(Consumed(front)));
      FoundIsFresh(parse, src, consumer, DigestSet(Consumed(front)));
      DistinctAppend(Consumed(front), BindingDigests(a.inputs));
    } else {
      assert Consumed(front) + BindingDigests(a.inputs) == Consumed(front);
    }
  }

  /** Over any run of Attempts no checkpoint is consumed twice. */
  lemma {:induction false} ConsumedAtMostOnce(parse: Text -> Option<Checkpoint>, attempts: seq<Attempt>)
    requires AttemptRun(parse, attempts)
    ensures Distinct(Consumed(attempts))
  {
    hide Found, Prepared;
    if attempts != [] {
      var n := |attempts| - 1;
      var front := attempts[..n];
      forall i | 0 <= i < |front| ensures Prepared(parse, front[..i], front[i]) { assert front[..i] == attempts[..i]; }
      ConsumedAtMostOnce(parse, front);
      OneMoreAttempt(parse, front, attempts[n]);
      assert attempts == front + [attempts[n]];
    }
  }

  /** A private directory the ledger can name. */
  predicate RootOk(root: Text) {
    |root| > 0 && root[0] == 0x2F && |root| <= 8_000 && 0 !in root
  }

  lemma PathIsBounded(src: Source, s: Stage)
    requires RootOk(src.root)
    ensures var p := BindingOf(src, s).path; |p| > 0 && p[0] == 0x2F && IsBounded(p, 8_192)
  {
    var p := src.root + FileName(s);
    assert |FileName(s)| <= 30 && 0 !in FileName(s);
    assert p[0] == src.root[0] && !IsSpace(p[0]);
    hide FileName, IsSpace;
  }

  /** A fresh Reviewer Attempt that takes the bindings found in a settled Reviewer Attempt's directory, and its reused
    * validation as its receipt, satisfies the ledger's invariant for Attempts, before it settles and after. */
  lemma PreparedAttemptIsSound(parse: Text -> Option<Checkpoint>, attempts: seq<Attempt>, src: Source,
      consumer: Identity, a: Attempt, taskDigest: Digest)
    requires AttemptsOk(attempts, None, taskDigest) && ActiveOk(a, taskDigest) && RootOk(src.root)
    requires var from := Find(attempts, src.identity.sourceAttemptId);
      from.Some? && from.value.lane.Reviewer? && from.value.phase.Settled?
    requires a.lane.Reviewer? && a.inputs == Found(parse, src, consumer, DigestSet(Consumed(attempts)))
    requires StageBinding(a.inputs, ValidationStage).Some? ==>
      a.receipt.Some? && a.receipt.value.path == StageBinding(a.inputs, ValidationStage).value.path
      && a.receipt.value.digest == StageBinding(a.inputs, ValidationStage).value.digest
    requires a.envelope.Some? && a.envelope.value.inputs.Some? ==> a.envelope.value.inputs.value == a.inputs
    ensures AttemptsOk(attempts, Some(a), taskDigest)
      && AttemptsOk(attempts + [Handoffs.Settle(a)], None, taskDigest)
  {
    NewInputsOk(parse, attempts, src, consumer, a);
    var before, all := AllAttempts(attempts, None), AllAttempts(attempts, Some(a));
    assert before == attempts && all == attempts + [a];
    FoundIsFresh(parse, src, consumer, DigestSet(Consumed(attempts)));
    hide Found, InputsOk, ActiveOk, StageBinding;
    assert all[..|attempts|] == attempts;
    DistinctAppend(Consumed(attempts), BindingDigests(a.inputs));
    assert Consumed(all) == Consumed(attempts) + BindingDigests(a.inputs);
    forall i | 0 <= i < |all| ensures InputsOk(all[i], attempts) {
      assert i < |attempts| ==> all[i] == before[i];
    }
    Handoffs.SettledAttemptsOk(attempts, a, taskDigest);
  }

  lemma NewInputsOk(parse: Text -> Option<Checkpoint>, attempts: seq<Attempt>, src: Source, consumer: Identity,
      a: Attempt)
    requires RootOk(src.root)
    requires var from := Find(attempts, src.identity.sourceAttemptId);
      from.Some? && from.value.lane.Reviewer? && from.value.phase.Settled?
    requires a.lane.Reviewer? && a.inputs == Found(parse, src, consumer, DigestSet(Consumed(attempts)))
    requires StageBinding(a.inputs, ValidationStage).Some? ==>
      a.receipt.Some? && a.receipt.value.path == StageBinding(a.inputs, ValidationStage).value.path
      && a.receipt.value.digest == StageBinding(a.inputs, ValidationStage).value.digest
    requires a.envelope.Some? && a.envelope.value.inputs.Some? ==> a.envelope.value.inputs.value == a.inputs
    ensures InputsOk(a, attempts)
  {
    FoundIsOffered(parse, src, consumer, DigestSet(Consumed(attempts)));
    hide Found, Offered, FileName;
    forall i | 0 <= i < |a.inputs| ensures BindingOk(a.inputs[i], attempts) {
      assert a.inputs[i] in a.inputs;
      PathIsBounded(src, a.inputs[i].stage);
      hide IsBounded;
    }
    hide BindingOk, BindingOf;
    forall i | 0 <= i < |a.inputs| && a.inputs[i].stage.ValidationStage?
      ensures a.receipt.Some?
        && a.receipt.value.path == a.inputs[i].path
        && a.receipt.value.digest == a.inputs[i].digest
    {
      assert HasStage(a.inputs, ValidationStage);
      var v := StageBinding(a.inputs, ValidationStage).value;
      var k :| 0 <= k < |a.inputs| && a.inputs[k] == v;
      assert k == i;
    }
  }
}
