// Controlled compaction: the turn hook that emits one start and one end event, the projection the events
// pass through, the runner's phase machine that accepts them, and the evidence reader that accepts its receipt.
module Compaction {
  import opened Options
  import opened Utf16
  import opened Ledger
  import TextBounds

  // ----- events and receipts as records -----

  datatype Key =
    | KType | KSource | KReason | KCount | KTriggerPercent | KContextTokens | KContextWindow | KPayloadByteEstimate
      | KAttemptCount
    | KDuration | KUsedRetry | KWillRetry | KOutcome | KTokensBefore | KTokensAfter | KSummaryDigest | KFailureDomain
      | KFailureCode
    | KPayloadBytes | KPayloadDigest | KOther(name: Text)

  datatype Code = ProviderTransientCode | ProviderPermanentCode | ProtocolCode | ContextInvalidCode | ApiDriftCode

  /** The texts the protocol names, and any other text. */
  datatype Word =
    | COMPACTION_START | COMPACTION_END | CONTROLLED | THRESHOLD | FAILED | COMPLETED | COMPACTION
      | FAILURE(code: Code) | Other(text: Text)

  datatype Value = Num(n: int) | Str(w: Word) | Bool(b: bool)
  type Record = map<Key, Value>

  const MAX_SAFE: int := 9_007_199_254_740_991

  predicate IsSafe(n: int) { -MAX_SAFE <= n <= MAX_SAFE }

  /** A safe integer at least `low`. */
  predicate IsCount(r: Record, k: Key, low: int) {
    k in r && r[k].Num? && IsSafe(r[k].n) && r[k].n >= low
  }

  predicate Is(r: Record, k: Key, v: Value) {
    k in r && r[k] == v
  }

  predicate IsDigest(v: Value) {
    v.Str? && v.w.Other? && IsLowerHex64(v.w.text)
  }

  predicate IsLowerHex64(t: Text) {
    |t| == 64 && forall i :: 0 <= i < 64 ==> 0x30 <= t[i] <= 0x39 || 0x61 <= t[i] <= 0x66
  }

  function CodeText(c: Code): Text {
    match c
    case ProviderTransientCode => Ascii("compaction_provider_transient")
    case ProviderPermanentCode => Ascii("compaction_provider_permanent")
    case ProtocolCode => Ascii("compaction_protocol")
    case ContextInvalidCode => Ascii("compaction_context_invalid")
    case ApiDriftCode => Ascii("compaction_internal_api_drift")
  }

  /** A word spelled out. */
  function Spell(w: Word): Text {
    match w
    case COMPACTION_START => Ascii("compaction_start")
    case COMPACTION_END => Ascii("compaction_end")
    case CONTROLLED => Ascii("harness-controlled")
    case THRESHOLD => Ascii("threshold")
    case FAILED => Ascii("failed")
    case COMPLETED => Ascii("completed")
    case COMPACTION => Ascii("compaction")
    case FAILURE(code) => CodeText(code)
    case Other(text) => text
  }

  predicate IsCode(r: Record) {
    exists c: Code :: Is(r, KFailureCode, Str(FAILURE(c)))
  }

  predicate IsProviderCode(r: Record) {
    Is(r, KFailureCode, Str(FAILURE(ProviderTransientCode))) || Is(r, KFailureCode, Str(FAILURE(ProviderPermanentCode)))
  }

  /** The one qualified policy. */
  const TRIGGER_PERCENT := 75
  const MAX_COMPACTIONS := 1

  // ----- the producer: one turn of the hook -----

  /** What the summary request, if it returns, hands over, and what installing it meets. */
  datatype Summary = Summary(
    text: Option<Text>, firstKeptIsText: bool, tokensBefore: Option<int>, installs: bool, messagesAreArray: bool,
    estimatedAfter: Option<int>, estimates: int)

  datatype Request = Returned(summary: Summary) | Failed(transient: bool)
  datatype Preparation = Throws | Missing | Unserializable | Serialized(bytes: nat)

  /** What a turn finds: the model's window, the tokens its usage counts, and how each foreign call answers. */
  datatype Turn = Turn(contextWindow: Option<int>, contextTokens: int, preparation: Preparation, first: Request,
      second: Request, duration: nat)

  predicate TurnOk(t: Turn) {
    t.duration <= MAX_SAFE && (t.preparation.Serialized? ==> t.preparation.bytes <= MAX_SAFE)
  }

  predicate Triggers(t: Turn) {
    && t.contextWindow.Some? && IsSafe(t.contextWindow.value) && t.contextWindow.value > 0
    && IsSafe(t.contextTokens) && t.contextTokens > 0
    && t.contextTokens * 100 >= t.contextWindow.value * TRIGGER_PERCENT
  }

  function Base(t: Turn, type_: Word, count: nat, bytes: nat, attempts: nat): Record
    requires t.contextWindow.Some?
  {
    map[KType := Str(type_), KSource := Str(CONTROLLED), KReason := Str(THRESHOLD), KCount := Num(count),
        KTriggerPercent := Num(TRIGGER_PERCENT), KContextTokens := Num(t.contextTokens),
            KContextWindow := Num(t.contextWindow.value),
        KPayloadByteEstimate := Num(bytes), KAttemptCount := Num(attempts), KUsedRetry := Bool(attempts == 2),
            KWillRetry := Bool(false)]
  }

  function StartEvent(t: Turn, count: nat, bytes: nat, attempts: nat): Record
    requires t.contextWindow.Some?
  {
    Base(t, COMPACTION_START, count, bytes, attempts)[KUsedRetry := Bool(false)]
  }

  function FailureEvent(t: Turn, count: nat, bytes: nat, attempts: nat, duration: nat, code: Code): Record
    requires t.contextWindow.Some?
  {
    Base(t, COMPACTION_END, count, bytes, attempts)
      [KDuration := Num(duration)][KOutcome := Str(FAILED)]
      [KFailureDomain := Str(COMPACTION)][KFailureCode := Str(FAILURE(code))]
  }

  function CompletedEvent(t: Turn, count: nat, bytes: nat, attempts: nat, before: int, after: int, digest: Text): Record
    requires t.contextWindow.Some?
  {
    Base(t, COMPACTION_END, count, bytes, attempts)
      [KDuration := Num(t.duration)][KOutcome := Str(COMPLETED)]
      [KTokensBefore := Num(before)][KTokensAfter := Num(after)][KSummaryDigest := Str(Other(digest))]
  }

  datatype Outcome = Untouched | Compacted | Threw(code: Code)

  /** What is wrong with a summary that came back, if anything. */
  function SummaryFault(x: Summary): Option<Code> {
    if x.text.None? || x.text.value == [] || !x.firstKeptIsText
       || x.tokensBefore.None? || !IsSafe(x.tokensBefore.value) || x.tokensBefore.value < 0 then Some(ProtocolCode)
    else if !x.installs || !x.messagesAreArray then Some(ApiDriftCode)
    else if !IsSafe(TokensAfter(x)) || TokensAfter(x) < 0 then Some(ProtocolCode)
    else None
  }

  function TokensAfter(x: Summary): int {
    if x.estimatedAfter.Some? && IsSafe(x.estimatedAfter.value) then x.estimatedAfter.value else x.estimates
  }

  /** The digest function stays abstract: only its shape matters. */
  class TurnHook {
    const digestOf: Text -> Text
    var compactionCount: nat
    var emitted: seq<Record>
    var requests: nat

    constructor (digestOf: Text -> Text)
      ensures compactionCount == 0 && emitted == [] && requests == 0 && this.digestOf == digestOf
    {
      this.digestOf := digestOf;
      compactionCount, emitted, requests := 0, [], 0;
    }

    method Emit(r: Record)
      modifies this`emitted
      ensures emitted == old(emitted) + [r]
    {
      emitted := emitted + [r];
    }

    /** The request loop: a transient first failure is retried once. */
    method RequestSummary(t: Turn) returns (answer: Request, attempts: nat)
      modifies this`requests
      ensures requests == old(requests) + attempts
      ensures attempts == Attempts(t) && answer == (if attempts == 1 then t.first else t.second)
    {
      attempts := 0;
      while true
        invariant attempts <= 1 && requests == old(requests) + attempts
        invariant attempts == 1 ==> t.first.Failed? && t.first.transient
        decreases 2 - attempts
      {
        attempts := attempts + 1;
        requests := requests + 1;
        answer := if attempts == 1 then t.first else t.second;
        if answer.Failed? && attempts == 1 && answer.transient { continue; }
        return;
      }
    }

    method NextTurn(t: Turn) returns (outcome: Outcome)
      modifies this
      ensures var quiet := old(compactionCount) >= MAX_COMPACTIONS || !Triggers(t);
        && compactionCount == old(compactionCount) + (if quiet then 0 else 1)
        && emitted == old(emitted) + (if quiet then [] else TurnEvents(digestOf, t, old(compactionCount) + 1))
        && requests == old(requests) + (if quiet then 0 else TurnRequests(t))
        && outcome == if quiet then Untouched else TurnOutcome(t)
      ensures var quiet := old(compactionCount) >= 1 || !OverThreshold(t);
        && (outcome == Compacted <==> !quiet && Completes(t))
        && (forall code :: outcome == Threw(code) <==> !quiet && FailsWith(t, code))
    {
      TriggersExactly(t);
      TurnEndsExactly(t);
      hide Completes, FailsWith;
      if compactionCount >= MAX_COMPACTIONS { return Untouched; }
      if !Triggers(t) { return Untouched; }
      compactionCount := compactionCount + 1;
      match t.preparation
      case Serialized(bytes) =>
        Emit(StartEvent(t, compactionCount, bytes, 1));
        var answer, attempts := RequestSummary(t);
        if answer.Failed? {
          var code := if answer.transient then ProviderTransientCode else ProviderPermanentCode;
          Emit(FailureEvent(t, compactionCount, bytes, attempts, t.duration, code));
          return Threw(code);
        }
        var fault := SummaryFault(answer.summary);
        if fault.Some? {
          Emit(FailureEvent(t, compactionCount, bytes, attempts, t.duration, fault.value));
          return Threw(fault.value);
        }
        Emit(CompletedEvent(t, compactionCount, bytes, attempts, answer.summary.tokensBefore.value,
            TokensAfter(answer.summary),
                            digestOf(answer.summary.text.value)));
        return Compacted;
      case _ =>
        var code := if t.preparation.Unserializable? then ProtocolCode else ContextInvalidCode;
        Emit(StartEvent(t, compactionCount, 0, 0));
        Emit(FailureEvent(t, compactionCount, 0, 0, 0, code));
        return Threw(code);
    }
  }

  // ----- specification of a triggered turn -----

  function Attempts(t: Turn): nat {
    if t.first.Failed? && t.first.transient then 2 else 1
  }

  function TurnRequests(t: Turn): nat {
    if t.preparation.Serialized? then Attempts(t) else 0
  }

  /** The failure a triggered turn ends with, if any. */
  function TurnFailure(t: Turn): Option<Code> {
    match t.preparation
    case Throws => Some(ContextInvalidCode)
    case Missing => Some(ContextInvalidCode)
    case Unserializable => Some(ProtocolCode)
    case Serialized(_) =>
      match (if Attempts(t) == 1 then t.first else t.second)
      case Failed(transient) => Some(if transient then ProviderTransientCode else ProviderPermanentCode)
      case Returned(x) => SummaryFault(x)
  }

  function TurnOutcome(t: Turn): Outcome {
    if TurnFailure(t).Some? then Threw(TurnFailure(t).value) else Compacted
  }

  function TurnEvents(digestOf: Text -> Text, t: Turn, count: nat): seq<Record>
    requires t.contextWindow.Some?
  {
    var bytes := if t.preparation.Serialized? then t.preparation.bytes else 0;
    var attempts := TurnRequests(t);
    var failure := TurnFailure(t);
    [StartEvent(t, count, bytes, if t.preparation.Serialized? then 1 else 0),
     if failure.Some? then FailureEvent(t, count, bytes, attempts, if t.preparation.Serialized? then t.duration
         else 0, failure.value)
     else
       var x := (if Attempts(t) == 1 then t.first else t.second).summary;
       CompletedEvent(t, count, bytes, attempts, x.tokensBefore.value, TokensAfter(x), digestOf(x.text.value))]
  }

  // ----- how a turn ends, on its own fields -----

  /** A known window, at least three quarters of it in use. */
  predicate OverThreshold(t: Turn) {
    && t.contextWindow.Some? && 1 <= t.contextWindow.value <= MAX_SAFE && 1 <= t.contextTokens <= MAX_SAFE
    && 4 * t.contextTokens >= 3 * t.contextWindow.value
  }

  lemma TriggersExactly(t: Turn)
    ensures Triggers(t) <==> OverThreshold(t)
  {
  }

  /** The answer of the last summary request. */
  predicate LastAnswer(t: Turn, a: Request) {
    if t.first == Failed(true) then a == t.second else a == t.first
  }

  /** A summary with a text, a text id of the first kept entry and a count of the tokens before. */
  predicate WellMade(x: Summary) {
    && x.text.Some? && |x.text.value| > 0 && x.firstKeptIsText
    && x.tokensBefore.Some? && 0 <= x.tokensBefore.value <= MAX_SAFE
  }

  /** The count of the tokens after: the summary's own if it is a safe integer, else the estimate of its messages. */
  predicate CountsAfter(x: Summary, n: int) {
    && 0 <= n <= MAX_SAFE
    && match x.estimatedAfter
       case None => n == x.estimates
       case Some(m) => if -MAX_SAFE <= m <= MAX_SAFE then n == m else n == x.estimates
  }

  predicate Returns(t: Turn, x: Summary) {
    t.preparation.Serialized? && LastAnswer(t, Returned(x))
  }

  predicate Installed(x: Summary) {
    x.installs && x.messagesAreArray
  }

  ghost predicate Countable(x: Summary) {
    exists n :: CountsAfter(x, n)
  }

  /** The preparation serialised, and the last request returned a well-made summary that installs. */
  ghost predicate Completes(t: Turn) {
    exists x :: Returns(t, x) && WellMade(x) && Installed(x) && Countable(x)
  }

  /** The one failure code each other case gives. */
  ghost predicate FailsWith(t: Turn, code: Code) {
    match code
    case ContextInvalidCode => t.preparation.Throws? || t.preparation.Missing?
    case ProviderTransientCode => t.preparation.Serialized? && LastAnswer(t, Failed(true))
    case ProviderPermanentCode => t.preparation.Serialized? && LastAnswer(t, Failed(false))
    case ApiDriftCode => exists x :: Returns(t, x) && WellMade(x) && !Installed(x)
    case ProtocolCode =>
      t.preparation.Unserializable? || exists x :: Returns(t, x) && (!WellMade(x) || (Installed(x) && !Countable(x)))
  }

  /** A triggered turn compacts exactly when all of that holds, and otherwise throws exactly its failure code. */
  lemma TurnEndsExactly(t: Turn)
    ensures TurnOutcome(t) == Compacted <==> Completes(t)
    ensures forall code :: TurnOutcome(t) == Threw(code) <==> FailsWith(t, code)
  {
    if t.preparation.Serialized? {
      var a := if t.first == Failed(true) then t.second else t.first;
      assert LastAnswer(t, a) && forall b :: LastAnswer(t, b) ==> b == a;
      assert forall x :: Returns(t, x) <==> a == Returned(x);
      hide LastAnswer, Returns;
      if a.Returned? { SummaryExactly(a.summary); }
      hide SummaryFault, WellMade, CountsAfter, Installed, Countable;
      assert a.Returned? ==> Returns(t, a.summary);
    }
  }

  lemma SummaryExactly(x: Summary)
    ensures SummaryFault(x).None? <==> WellMade(x) && Installed(x) && Countable(x)
    ensures SummaryFault(x) == Some(ApiDriftCode) <==> WellMade(x) && !Installed(x)
    ensures SummaryFault(x) in {None, Some(ApiDriftCode), Some(ProtocolCode)}
    ensures forall n :: CountsAfter(x, n) ==> TokensAfter(x) == n
  {
    assert CountsAfter(x, TokensAfter(x)) <==> 0 <= TokensAfter(x) <= MAX_SAFE;
  }

  /** The hook over a whole run of turns, as (compactions, events, summary requests). */
  datatype Emission = Emission(count: nat, events: seq<Record>, requests: nat)

  function RunTurns(digestOf: Text -> Text, turns: seq<Turn>): Emission {
    if turns == [] then Emission(0, [], 0)
    else
      var before, t := RunTurns(digestOf, turns[..|turns| - 1]), turns[|turns| - 1];
      if before.count >= MAX_COMPACTIONS || !Triggers(t) then before
      else Emission(before.count + 1, before.events + TurnEvents(digestOf, t, before.count + 1), before.requests
          + TurnRequests(t))
  }

  /** The first turn that triggers, if any: the only one that compacts. */
  function FirstTrigger(turns: seq<Turn>): (r: Option<Turn>)
    ensures r.Some? ==> exists i: nat :: FirstOver(turns, i) && turns[i] == r.value
    ensures r.None? ==> forall i :: 0 <= i < |turns| ==> !OverThreshold(turns[i])
  {
    if turns == [] then None
    else
      var before, t := FirstTrigger(turns[..|turns| - 1]), turns[|turns| - 1];
      assert before.None? && OverThreshold(t) ==> FirstOver(turns, |turns| - 1) by {
        assert forall i :: 0 <= i < |turns| - 1 ==> turns[i] == turns[..|turns| - 1][i];
      }
      assert before.Some? ==> exists i: nat :: FirstOver(turns, i) && turns[i] == before.value by {
        if before.Some? {
          var i: nat :| FirstOver(turns[..|turns| - 1], i) && turns[..|turns| - 1][i] == before.value;
          assert FirstOver(turns, i);
        }
      }
      TriggersExactly(t);
      if before.Some? then before else if Triggers(t) then Some(t) else None
  }

  /** The i-th turn is the first over the threshold. */
  predicate FirstOver(turns: seq<Turn>, i: nat) {
    i < |turns| && OverThreshold(turns[i]) && forall j :: 0 <= j < i ==> !OverThreshold(turns[j])
  }

  /** However many turns run, the hook emits nothing, or exactly the pair of the first turn over the threshold, after at
    * most two summary requests. */
  lemma {:induction false} OnePairAtMost(digestOf: Text -> Text, turns: seq<Turn>)
    ensures var e := RunTurns(digestOf, turns);
      var first := FirstTrigger(turns);
      && e.requests <= 2
      && e == if first.None? then Emission(0, [], 0)
              else Emission(1, TurnEvents(digestOf, first.value, 1), TurnRequests(first.value))
  {
    if turns != [] {
      OnePairAtMost(digestOf, turns[..|turns| - 1]);
    }
  }

  /** A receipt with the turn's own numbers: its window and tokens, the payload's size, one request or two, how
    * long they took, and for a turn that completes the tokens before and after and the digest of the summary. */
  ghost predicate Reports(digestOf: Text -> Text, t: Turn, r: Record) {
    && t.contextWindow.Some? && Is(r, KContextTokens, Num(t.contextTokens))
      && Is(r, KContextWindow, Num(t.contextWindow.value))
    && (t.preparation.Serialized? ==>
         && Is(r, KPayloadByteEstimate, Num(t.preparation.bytes)) && Is(r, KDuration, Num(t.duration))
         && Is(r, KAttemptCount, Num(if t.first == Failed(true) then 2 else 1)))
    && (!t.preparation.Serialized? ==>
         Is(r, KPayloadByteEstimate, Num(0)) && Is(r, KDuration, Num(0)) && Is(r, KAttemptCount, Num(0)))
    && (forall x, n :: Returns(t, x) && WellMade(x) && Installed(x) && CountsAfter(x, n) ==>
         && Is(r, KTokensBefore, Num(x.tokensBefore.value)) && Is(r, KTokensAfter, Num(n))
         && Is(r, KSummaryDigest, Str(Other(digestOf(x.text.value)))))
  }

  // ----- the projection -----

  function TextKeys(): seq<Key> {
    [KSource, KReason, KOutcome, KSummaryDigest, KFailureDomain, KFailureCode]
  }

  function CountKeys(): seq<Key> {
    [KCount, KTriggerPercent, KContextTokens, KContextWindow, KPayloadByteEstimate, KAttemptCount,
      KDuration, KTokensBefore, KTokensAfter]
  }

  datatype Metadata = Metadata(bytes: nat, digest: Text)

  predicate ShortTexts(r: Record) {
    forall k :: k in r && r[k].Str? ==> ByteLength(Spell(r[k].w)) <= 256
  }

  predicate IsTextKey(k: Key) {
    k.KSource? || k.KReason? || k.KOutcome? || k.KSummaryDigest? || k.KFailureDomain? || k.KFailureCode?
  }

  predicate IsCountKey(k: Key) {
    k.KCount? || k.KTriggerPercent? || k.KContextTokens? || k.KContextWindow? || k.KPayloadByteEstimate?
    || k.KAttemptCount? || k.KDuration? || k.KTokensBefore? || k.KTokensAfter?
  }

  lemma KeyListsAre()
    ensures forall k :: k in TextKeys() <==> IsTextKey(k)
    ensures forall k :: k in CountKeys() <==> IsCountKey(k)
  {
    assert TextKeys()[0] == KSource && TextKeys()[1] == KReason && TextKeys()[2] == KOutcome;
    assert TextKeys()[3] == KSummaryDigest && TextKeys()[4] == KFailureDomain && TextKeys()[5] == KFailureCode;
    assert CountKeys()[0] == KCount && CountKeys()[1] == KTriggerPercent && CountKeys()[2] == KContextTokens;
    assert CountKeys()[3] == KContextWindow && CountKeys()[4] == KPayloadByteEstimate
      && CountKeys()[5] == KAttemptCount;
    assert CountKeys()[6] == KDuration && CountKeys()[7] == KTokensBefore && CountKeys()[8] == KTokensAfter;
  }

  predicate KeepsText(r: Record, k: Key) { IsTextKey(k) && k in r && r[k].Str? }
  predicate KeepsCount(r: Record, k: Key) { IsCountKey(k) && k in r && r[k].Num? && IsSafe(r[k].n) && r[k].n >= 0 }

  /** The projection of a text: a long one is cut to its longest aligned prefix of 256 bytes. */
  ghost predicate Cuts(before: Word, after: Word) {
    var t := Spell(before);
    if ByteLength(t) <= 256 then after == before
    else after.Other? && after.text <= t && ByteLength(after.text) <= 256
         && (WellFormed(t) ==> LongestPrefix(t, 256, after.text))
  }

  ghost predicate CutsAt(r: Record, k: Key, v: Value) {
    KeepsText(r, k) && v.Str? && Cuts(r[k].w, v.w)
  }

  /** What projecting an event keeps. */
  ghost predicate Projects(r: Record, type_: Word, meta: Metadata, p: Record) {
    forall k: Key ::
      (k in p <==>
        || k == KType || k == KWillRetry || k == KUsedRetry || k == KPayloadBytes || k == KPayloadDigest
        || KeepsText(r, k) || KeepsCount(r, k))
      && (k in p ==>
           if k == KType then p[k] == Str(type_)
           else if k == KWillRetry || k == KUsedRetry then p[k] == Bool(Is(r, k, Bool(true)))
           else if k == KPayloadBytes then p[k] == Num(meta.bytes)
           else if k == KPayloadDigest then p[k] == Str(Other(meta.digest))
           else if KeepsText(r, k) then CutsAt(r, k, p[k])
           else k in r && p[k] == r[k])
  }

  method CutText(w: Word) returns (c: Word)
    ensures Cuts(w, c)
  {
    var t := TextBounds.BoundedUtf8(Spell(w), 256);
    c := if t == Spell(w) then w else Other(t);
    hide Spell;
  }

  method ProjectTexts(r: Record, start: Record) returns (p: Record)
    requires forall k :: k in start ==> k == KType
    ensures forall k :: k in p <==> k in start || KeepsText(r, k)
    ensures forall k :: k in p ==> if k in start then p[k] == start[k] else CutsAt(r, k, p[k])
  {
    hide Cuts;
    KeyListsAre();
    p := start;
    for i := 0 to |TextKeys()|
      invariant forall k :: k in p <==> k in start || (k in TextKeys()[..i] && KeepsText(r, k))
      invariant forall k :: k in p ==> if k in start then p[k] == start[k] else CutsAt(r, k, p[k])
    {
      var k := TextKeys()[i];
      assert forall x :: x in TextKeys()[..i + 1] <==> x in TextKeys()[..i] || x == k;
      assert k in TextKeys();
      if k in r && r[k].Str? {
        var c := CutText(r[k].w);
        p := p[k := Str(c)];
      }
    }
    assert TextKeys()[..|TextKeys()|] == TextKeys();
  }

  method ProjectCounts(r: Record, start: Record) returns (p: Record)
    requires forall k :: k in start ==> k == KType || IsTextKey(k)
    ensures forall k :: k in p <==> k in start || KeepsCount(r, k)
    ensures forall k :: k in p ==> k in start || k in r
    ensures forall k :: k in p ==> p[k] == if k in start then start[k] else r[k]
  {
    KeyListsAre();
    p := start;
    for i := 0 to |CountKeys()|
      invariant forall k :: k in p <==> k in start || (k in CountKeys()[..i] && KeepsCount(r, k))
      invariant forall k :: k in p ==> (k in start || k in r) && p[k] == if k in start then start[k] else r[k]
    {
      var k := CountKeys()[i];
      assert forall x :: x in CountKeys()[..i + 1] <==> x in CountKeys()[..i] || x == k;
      assert k in CountKeys();
      if k in r && r[k].Num? && IsSafe(r[k].n) && r[k].n >= 0 { p := p[k := r[k]]; }
    }
    assert CountKeys()[..|CountKeys()|] == CountKeys();
  }

  /** The texts and counts with the four fields every projection ends with. */
  function Assembled(r: Record, meta: Metadata, q: Record): Record {
    q[KWillRetry := Bool(Is(r, KWillRetry, Bool(true)))][KUsedRetry := Bool(Is(r, KUsedRetry, Bool(true)))]
     [KPayloadBytes := Num(meta.bytes)][KPayloadDigest := Str(Other(meta.digest))]
  }

  lemma AssembledProjects(r: Record, type_: Word, meta: Metadata, q: Record)
    requires forall k :: k in q <==> k == KType || KeepsText(r, k) || KeepsCount(r, k)
    requires forall k :: k in q ==>
      if k == KType then q[k] == Str(type_)
      else if KeepsText(r, k) then CutsAt(r, k, q[k])
      else KeepsCount(r, k) && q[k] == r[k]
    ensures Projects(r, type_, meta, Assembled(r, meta, q))
  {
    hide CutsAt, Is;
    var p := Assembled(r, meta, q);
    forall k: Key | k in p && k !in {KWillRetry, KUsedRetry, KPayloadBytes, KPayloadDigest}
      ensures k in q && p[k] == q[k]
    {
    }
  }

  method ProjectCompaction(r: Record, type_: Word, meta: Metadata) returns (p: Record)
    ensures Projects(r, type_, meta, p)
  {
    hide CutsAt, Is, Projects;
    var texts := ProjectTexts(r, map[KType := Str(type_)]);
    var counted := ProjectCounts(r, texts);
    AssembledProjects(r, type_, meta, counted);
    p := counted;
    p := p[KWillRetry := Bool(Is(r, KWillRetry, Bool(true)))];
    p := p[KUsedRetry := Bool(Is(r, KUsedRetry, Bool(true)))];
    p := p[KPayloadBytes := Num(meta.bytes)];
    p := p[KPayloadDigest := Str(Other(meta.digest))];
  }

  /** Which fields of an event pass the projection: six texts, nine safe counts that are not negative, two flags, the
    * type and the payload's size and digest. */
  ghost predicate PassesOn(r: Record, k: Key) {
    match k
    case KType | KWillRetry | KUsedRetry | KPayloadBytes | KPayloadDigest => true
    case KSource | KReason | KOutcome | KSummaryDigest | KFailureDomain | KFailureCode => k in r && r[k].Str?
    case KCount | KTriggerPercent | KContextTokens | KContextWindow | KPayloadByteEstimate | KAttemptCount | KDuration
         | KTokensBefore | KTokensAfter => k in r && r[k].Num? && 0 <= r[k].n <= MAX_SAFE
    case _ => false
  }

  /** The projection lets nothing else through, changes no count, and shortens texts only beyond 256 bytes. */
  lemma ProjectionExactly(r: Record, type_: Word, meta: Metadata, p: Record, k: Key)
    requires Projects(r, type_, meta, p)
    ensures k in p <==> PassesOn(r, k)
    ensures k in p && k !in {KType, KWillRetry, KUsedRetry, KPayloadBytes, KPayloadDigest} ==>
      && k in r && (r[k].Num? ==> p[k] == r[k])
      && (r[k].Str? && ByteLength(Spell(r[k].w)) <= 256 ==> p[k] == r[k])
  {
    hide Spell, Is;
  }

  /** What every projection adds. */
  lemma ProjectionAdds(r: Record, type_: Word, meta: Metadata, p: Record)
    requires Projects(r, type_, meta, p)
    ensures Is(p, KType, Str(type_)) && Is(p, KPayloadBytes, Num(meta.bytes))
      && Is(p, KPayloadDigest, Str(Other(meta.digest)))
    ensures Is(p, KWillRetry, Bool(KWillRetry in r && r[KWillRetry] == Bool(true)))
      && Is(p, KUsedRetry, Bool(KUsedRetry in r && r[KUsedRetry] == Bool(true)))
  {
    hide CutsAt, KeepsText, KeepsCount;
    assert KType in p && KPayloadBytes in p && KPayloadDigest in p && KWillRetry in p && KUsedRetry in p;
  }

  /** A digest is 64 lower-case hexadecimal digits. */
  lemma DigestExactly(t: Text)
    ensures IsLowerHex64(t) <==>
      |t| == 64 && forall i :: 0 <= i < 64 ==> t[i] in Ascii("0123456789abcdef")
  {
    var digits := Ascii("0123456789abcdef");
    assert forall d :: 0 <= d < 10 ==> digits[d] == 0x30 + d;
    assert forall d :: 10 <= d < 16 ==> digits[d] == 0x61 + d - 10;
    forall u: CodeUnit ensures u in digits <==> 0x30 <= u <= 0x39 || 0x61 <= u <= 0x66 {
      if 0x30 <= u <= 0x39 { assert digits[u - 0x30] == u; }
      if 0x61 <= u <= 0x66 { assert digits[u - 0x61 + 10] == u; }
    }
    hide Ascii;
  }

  predicate MetadataOk(m: Metadata) {
    m.bytes <= MAX_SAFE && IsLowerHex64(m.digest)
  }

  // ----- the runner's phase machine -----

  datatype Phase = Idle | Started | Ended
  datatype Acceptance = Acceptance(phase: Phase, receipt: Option<Record>, error: bool, failureCode: Option<Value>)

  function ProtocolFailure(): Acceptance {
    Acceptance(Ended, None, true, Some(Str(FAILURE(ProtocolCode))))
  }

  function StartKeySet(): set<Key> {
    {
    KType, KSource, KReason, KCount, KTriggerPercent, KContextTokens, KContextWindow, KWillRetry,
    KPayloadByteEstimate, KAttemptCount, KUsedRetry, KPayloadBytes, KPayloadDigest}
  }

  function FailureKeySet(): set<Key> {
    {
    KType, KSource, KReason, KCount, KTriggerPercent, KContextTokens, KContextWindow, KPayloadByteEstimate,
        KAttemptCount, KDuration,
    KUsedRetry, KWillRetry, KOutcome, KFailureDomain, KFailureCode, KPayloadBytes, KPayloadDigest}
  }

  function EndKeySet(): set<Key> {
    FailureKeySet() + {KTokensBefore, KTokensAfter, KSummaryDigest}
  }

  /** The counters both events carry, over the trigger. */
  predicate CountersOk(r: Record, maxAttempts: int) {
    && IsCount(r, KContextTokens, 1)
    && IsCount(r, KContextWindow, 1)
    && IsCount(r, KPayloadByteEstimate, 0)
    && IsCount(r, KAttemptCount, 0) && r[KAttemptCount].n <= maxAttempts
    && r[KContextTokens].n * 100 >= r[KContextWindow].n * TRIGGER_PERCENT
  }

  predicate BaseOk(r: Record) {
    && Is(r, KSource, Str(CONTROLLED)) && Is(r, KReason, Str(THRESHOLD)) && Is(r, KCount, Num(1))
    && Is(r, KTriggerPercent, Num(TRIGGER_PERCENT)) && Is(r, KWillRetry, Bool(false))
    && KPayloadDigest in r && IsDigest(r[KPayloadDigest]) && IsCount(r, KPayloadBytes, 0)
  }

  function ReceiptBaseKeySet(): set<Key> {
    {
    KCount, KReason, KTriggerPercent, KContextTokens, KContextWindow, KPayloadByteEstimate, KAttemptCount,
        KDuration, KUsedRetry, KOutcome, KWillRetry}
  }

  /** The receipt of an end event: its counters and what its outcome adds. */
  function ReceiptOf(r: Record, extra: set<Key>): Record {
    map k | k in r && (k in ReceiptBaseKeySet() || k in extra) :: r[k]
  }

  function AcceptEnd(r: Record): Acceptance
  {
    if !(CountersOk(r, 2) && IsCount(r, KDuration, 0) && Is(r, KUsedRetry, Bool(r[KAttemptCount].n == 2)))
        then ProtocolFailure()
    else if Is(r, KOutcome, Str(FAILED)) then
      if !(r.Keys <= FailureKeySet()) || !Is(r, KFailureDomain, Str(COMPACTION)) || !IsCode(r)
          || (IsProviderCode(r) && r[KAttemptCount].n < 1)
      then ProtocolFailure()
      else Acceptance(Ended, Some(ReceiptOf(r, {KFailureDomain, KFailureCode})), true, Some(r[KFailureCode]))
    else if !Is(r, KOutcome, Str(COMPLETED)) || r[KAttemptCount].n < 1 || KFailureDomain in r || KFailureCode in r
            || !IsCount(r, KTokensBefore, 0) || !IsCount(r, KTokensAfter, 0)
            || !(KSummaryDigest in r && IsDigest(r[KSummaryDigest]))
    then ProtocolFailure()
    else Acceptance(Ended, Some(ReceiptOf(r, {KTokensBefore, KTokensAfter, KSummaryDigest})), false, None)
  }

  /** `acceptControlledCompactionEvent`; `controlled` says the plan is a Worker's with the qualified policy. */
  function Accept(controlled: bool, r: Record, phase: Phase): Acceptance {
    if !controlled then Acceptance(phase, None, true, None)
    else if !BaseOk(r) then ProtocolFailure()
    else if Is(r, KType, Str(COMPACTION_START)) then
      if phase.Idle? && r.Keys <= StartKeySet() && CountersOk(r, 1) && Is(r, KUsedRetry, Bool(false))
      then Acceptance(Started, None, false, None) else ProtocolFailure()
    else if !Is(r, KType, Str(COMPACTION_END)) || !phase.Started? || !(r.Keys <= EndKeySet()) then ProtocolFailure()
    else AcceptEnd(r)
  }

  // ----- what the machine accepts, field by field -----

  /** A number in a range. */
  predicate InRange(r: Record, k: Key, low: int, high: int) {
    k in r && r[k].Num? && low <= r[k].n <= high
  }

  predicate HexField(r: Record, k: Key) {
    k in r && r[k].Str? && r[k].w.Other? && IsLowerHex64(r[k].w.text)
  }

  /** What every event of the controlled policy says, at most `attempts` requests included. */
  predicate EventShape(r: Record, type_: Word, attempts: nat) {
    && Is(r, KType, Str(type_)) && Is(r, KSource, Str(CONTROLLED)) && Is(r, KReason, Str(THRESHOLD))
    && Is(r, KCount, Num(1)) && Is(r, KTriggerPercent, Num(75)) && Is(r, KWillRetry, Bool(false))
    && HexField(r, KPayloadDigest) && InRange(r, KPayloadBytes, 0, MAX_SAFE)
    && InRange(r, KContextTokens, 1, MAX_SAFE) && InRange(r, KContextWindow, 1, MAX_SAFE)
    && 4 * r[KContextTokens].n >= 3 * r[KContextWindow].n
    && InRange(r, KPayloadByteEstimate, 0, MAX_SAFE) && InRange(r, KAttemptCount, 0, attempts)
  }

  /** Nothing an end would say. */
  ghost predicate SaysNoEnd(r: Record) {
    forall k :: k in r ==> !(k.KDuration? || k.KOutcome? || k.KTokensBefore? || k.KTokensAfter?
                             || k.KSummaryDigest? || k.KFailureDomain? || k.KFailureCode? || k.KOther?)
  }

  ghost predicate SaysNoFailure(r: Record) {
    forall k :: k in r ==> !(k.KFailureDomain? || k.KFailureCode? || k.KOther?)
  }

  ghost predicate SaysNoCompletion(r: Record) {
    forall k :: k in r ==> !(k.KTokensBefore? || k.KTokensAfter? || k.KSummaryDigest? || k.KOther?)
  }

  /** A start: at most one request so far, no retry, and nothing an end would say. */
  ghost predicate StartShape(r: Record) {
    EventShape(r, COMPACTION_START, 1) && Is(r, KUsedRetry, Bool(false)) && SaysNoEnd(r)
  }

  predicate EndShape(r: Record) {
    EventShape(r, COMPACTION_END, 2) && InRange(r, KDuration, 0, MAX_SAFE)
      && Is(r, KUsedRetry, Bool(r[KAttemptCount] == Num(2)))
  }

  /** A completion: at least one request, the tokens before and after, the summary's digest and no failure. */
  ghost predicate CompletionShape(r: Record) {
    && EndShape(r) && r[KAttemptCount] != Num(0) && Is(r, KOutcome, Str(COMPLETED))
    && InRange(r, KTokensBefore, 0, MAX_SAFE) && InRange(r, KTokensAfter, 0, MAX_SAFE) && HexField(r, KSummaryDigest)
    && SaysNoFailure(r)
  }

  /** A failure with a known code, after a request at least where the provider is to blame, and no completion. */
  ghost predicate FailureShape(r: Record, code: Code) {
    && EndShape(r) && Is(r, KOutcome, Str(FAILED)) && Is(r, KFailureDomain, Str(COMPACTION))
    && Is(r, KFailureCode, Str(FAILURE(code)))
    && (code.ProviderTransientCode? || code.ProviderPermanentCode? ==> r[KAttemptCount] != Num(0))
    && SaysNoCompletion(r)
  }

  /** The receipt of an end holds its numbers and outcome and leaves out what identifies the event. */
  ghost predicate ReceiptFor(r: Record, x: Record) {
    && (forall k :: k in x <==> k in r && !(k.KType? || k.KSource? || k.KPayloadBytes? || k.KPayloadDigest?))
    && (forall k :: k in x ==> x[k] == r[k])
  }

  lemma StartExactly(r: Record, phase: Phase)
    requires Is(r, KType, Str(COMPACTION_START))
    ensures Accept(true, r, phase)
      == if phase.Idle? && StartShape(r) then Acceptance(Started, None, false, None) else ProtocolFailure()
  {
    KeysExactly(r);
    EventShapeExactly(r, COMPACTION_START, 1);
    hide BaseOk, CountersOk, EventShape, StartKeySet, SaysNoEnd;
  }

  lemma EventShapeExactly(r: Record, type_: Word, attempts: nat)
    requires attempts <= 2
    ensures EventShape(r, type_, attempts) <==> BaseOk(r) && Is(r, KType, Str(type_)) && CountersOk(r, attempts)
  {
    hide IsLowerHex64;
  }

  lemma KeysExactly(r: Record)
    ensures r.Keys <= StartKeySet() <==> SaysNoEnd(r)
    ensures r.Keys <= EndKeySet() && KFailureDomain !in r && KFailureCode !in r <==> SaysNoFailure(r)
    ensures r.Keys <= FailureKeySet() <==> SaysNoCompletion(r)
    ensures r.Keys <= FailureKeySet() ==> r.Keys <= EndKeySet()
  {
  }

  lemma CompletionReceipt(r: Record)
    requires SaysNoFailure(r)
    ensures ReceiptFor(r, ReceiptOf(r, {KTokensBefore, KTokensAfter, KSummaryDigest}))
  {
  }

  lemma FailureReceipt(r: Record)
    requires SaysNoCompletion(r)
    ensures ReceiptFor(r, ReceiptOf(r, {KFailureDomain, KFailureCode}))
  {
  }

  predicate EndCounters(r: Record) {
    CountersOk(r, 2) && IsCount(r, KDuration, 0) && Is(r, KUsedRetry, Bool(r[KAttemptCount].n == 2))
  }

  lemma EndShapeExactly(r: Record)
    ensures EndShape(r) <==> BaseOk(r) && Is(r, KType, Str(COMPACTION_END)) && EndCounters(r)
    ensures EndShape(r) ==> KAttemptCount in r && r[KAttemptCount].Num? && r[KAttemptCount].n >= 0
  {
    EventShapeExactly(r, COMPACTION_END, 2);
    hide BaseOk, IsDigest;
  }

  /** The checks of `AcceptEnd` on a completion. */
  predicate CompletionChecks(r: Record)
    requires KAttemptCount in r && r[KAttemptCount].Num?
  {
    && Is(r, KOutcome, Str(COMPLETED)) && r[KAttemptCount].n >= 1 && KFailureDomain !in r && KFailureCode !in r
    && IsCount(r, KTokensBefore, 0) && IsCount(r, KTokensAfter, 0)
    && KSummaryDigest in r && IsDigest(r[KSummaryDigest])
  }

  lemma CompletionChecksExactly(r: Record)
    requires EndShape(r) && r.Keys <= EndKeySet()
    ensures KAttemptCount in r && r[KAttemptCount].Num? && (CompletionShape(r) <==> CompletionChecks(r))
  {
    EndShapeExactly(r);
    hide EndShape, IsLowerHex64;
    KeysExactly(r);
    hide EndKeySet, SaysNoFailure, SaysNoEnd, SaysNoCompletion;
  }

  lemma CompletionExactly(r: Record)
    requires EndShape(r) && EndCounters(r) && r.Keys <= EndKeySet() && !Is(r, KOutcome, Str(FAILED))
    ensures var a := AcceptEnd(r);
      if CompletionShape(r) then
        a.phase.Ended? && !a.error && a.failureCode.None? && a.receipt.Some? && ReceiptFor(r, a.receipt.value)
      else a == ProtocolFailure()
  {
    CompletionChecksExactly(r);
    assert CompletionShape(r) ==> SaysNoFailure(r);
    hide EndShape, CountersOk, EndKeySet, SaysNoFailure, IsCount, IsDigest, Is, CompletionShape, ReceiptFor, ReceiptOf;
    if CompletionShape(r) { CompletionReceipt(r); }
  }

  lemma FailureChecksExactly(r: Record, code: Code)
    requires EndShape(r) && Is(r, KOutcome, Str(FAILED)) && Is(r, KFailureCode, Str(FAILURE(code)))
    ensures KAttemptCount in r && r[KAttemptCount].Num?
    ensures FailureShape(r, code) <==>
      r.Keys <= FailureKeySet() && Is(r, KFailureDomain, Str(COMPACTION)) && (IsProviderCode(r)
        ==> r[KAttemptCount].n >= 1)
  {
    EndShapeExactly(r);
    hide EndShape;
    KeysExactly(r);
    hide FailureKeySet, EndKeySet, SaysNoFailure, SaysNoEnd, SaysNoCompletion;
  }

  lemma FailureExactly(r: Record)
    requires EndShape(r) && EndCounters(r) && r.Keys <= EndKeySet() && Is(r, KOutcome, Str(FAILED))
    ensures var a := AcceptEnd(r);
      && (forall code :: FailureShape(r, code) ==>
           && a.phase.Ended? && a.error && a.failureCode == Some(Str(FAILURE(code)))
           && a.receipt.Some? && ReceiptFor(r, a.receipt.value))
      && ((forall code :: !FailureShape(r, code)) ==> a == ProtocolFailure())
  {
    if c :| Is(r, KFailureCode, Str(FAILURE(c))) {
      FailureChecksExactly(r, c);
      assert forall code :: FailureShape(r, code) ==> code == c && SaysNoCompletion(r);
      assert IsCode(r) && r[KFailureCode] == Str(FAILURE(c));
      hide EndShape, CountersOk, EndKeySet, FailureKeySet, SaysNoCompletion, FailureShape, ReceiptFor, ReceiptOf,
        IsCount, Is,
        IsCode, IsProviderCode;
      if FailureShape(r, c) { FailureReceipt(r); }
    } else {
      hide EndShape, CountersOk, EndKeySet, FailureKeySet, SaysNoCompletion, ReceiptFor, ReceiptOf, IsCount, Is;
    }
  }

  lemma NotAnEnd(r: Record, phase: Phase)
    requires !Is(r, KType, Str(COMPACTION_START))
    requires !(EndShape(r) && phase.Started? && r.Keys <= EndKeySet())
    ensures Accept(true, r, phase) == ProtocolFailure()
  {
    EndShapeExactly(r);
    hide BaseOk, CountersOk, EndKeySet, EndShape;
  }

  /** What the shapes of an end have in common. */
  lemma EndFacts(r: Record)
    ensures StartShape(r) ==> Is(r, KType, Str(COMPACTION_START))
    ensures CompletionShape(r) ==> !Is(r, KOutcome, Str(FAILED)) && EndShape(r) && r.Keys <= EndKeySet()
    ensures forall code ::
      FailureShape(r, code) ==> Is(r, KOutcome, Str(FAILED)) && EndShape(r) && r.Keys <= EndKeySet()
    ensures EndShape(r) ==>
      BaseOk(r) && Is(r, KType, Str(COMPACTION_END)) && !Is(r, KType, Str(COMPACTION_START)) && EndCounters(r)
  {
    KeysExactly(r);
    EndShapeExactly(r);
    hide BaseOk, EndShape, EndCounters, EndKeySet, StartKeySet, FailureKeySet, SaysNoEnd, SaysNoFailure,
      SaysNoCompletion;
  }

  /** The phase machine, exactly: a start from idle, a completion or a failure from started, and anything else is a
    * protocol failure; outside a controlled plan every event is an error. */
  lemma AcceptExactly(r: Record, phase: Phase)
    ensures Accept(false, r, phase) == Acceptance(phase, None, true, None)
    ensures var a := Accept(true, r, phase);
      if phase.Idle? && StartShape(r) then a == Acceptance(Started, None, false, None)
      else if phase.Started? && CompletionShape(r) then
        a.phase.Ended? && !a.error && a.failureCode.None? && a.receipt.Some? && ReceiptFor(r, a.receipt.value)
      else if phase.Started? && exists code :: FailureShape(r, code) then
        forall code :: FailureShape(r, code) ==>
          && a.phase.Ended? && a.error && a.failureCode == Some(Str(FAILURE(code)))
          && a.receipt.Some? && ReceiptFor(r, a.receipt.value)
      else a == ProtocolFailure()
  {
    EndFacts(r);
    hide BaseOk, AcceptEnd, EndShape, EndCounters, EndKeySet, FailureShape, CompletionShape, StartShape, ReceiptFor, Is;
    if Is(r, KType, Str(COMPACTION_START)) {
      StartExactly(r, phase);
    } else if EndShape(r) && phase.Started? && r.Keys <= EndKeySet() {
      if Is(r, KOutcome, Str(FAILED)) { FailureExactly(r); } else { CompletionExactly(r); }
    } else {
      NotAnEnd(r, phase);
    }
  }

  // ----- the evidence reader -----

  function ReceiptKeySet(): set<Key> {
    {
    KCount, KReason, KTriggerPercent, KContextTokens, KContextWindow, KPayloadByteEstimate, KAttemptCount,
        KDuration, KUsedRetry, KOutcome,
    KTokensBefore, KTokensAfter, KSummaryDigest, KFailureDomain, KFailureCode, KWillRetry}
  }

  function FailedReceiptKeySet(): set<Key> {
    ReceiptKeySet() - {KTokensBefore, KTokensAfter, KSummaryDigest}
  }

  /** `safeCompactionReceipt` */
  function SafeReceipt(r: Record): Option<Record> {
    if !(r.Keys <= ReceiptKeySet() && Is(r, KCount, Num(1)) && Is(r, KReason, Str(THRESHOLD))
        && Is(r, KTriggerPercent, Num(75))
         && Is(r, KWillRetry, Bool(false)) && CountersOk(r, 2) && IsCount(r, KDuration, 0)
         && Is(r, KUsedRetry, Bool(r[KAttemptCount].n == 2))) then None
    else if Is(r, KOutcome, Str(FAILED)) then
      if r.Keys == FailedReceiptKeySet() && Is(r, KFailureDomain, Str(COMPACTION)) && IsCode(r) then Some(r) else None
    else if !Is(r, KOutcome, Str(COMPLETED)) || r[KAttemptCount].n < 1 || KFailureDomain in r || KFailureCode in r
            || !IsCount(r, KTokensBefore, 0) || !IsCount(r, KTokensAfter, 0)
            || !(KSummaryDigest in r && IsDigest(r[KSummaryDigest])) then None
    else Some(r)
  }

  /** What every receipt says: nothing that identifies an event, and the numbers of one compaction in range. */
  ghost predicate ReceiptShape(r: Record) {
    && (forall k :: k in r ==> !(k.KType? || k.KSource? || k.KPayloadBytes? || k.KPayloadDigest? || k.KOther?))
    && Is(r, KCount, Num(1)) && Is(r, KReason, Str(THRESHOLD)) && Is(r, KTriggerPercent, Num(75))
    && Is(r, KWillRetry, Bool(false)) && InRange(r, KDuration, 0, MAX_SAFE)
    && InRange(r, KContextTokens, 1, MAX_SAFE) && InRange(r, KContextWindow, 1, MAX_SAFE)
    && 4 * r[KContextTokens].n >= 3 * r[KContextWindow].n
    && InRange(r, KPayloadByteEstimate, 0, MAX_SAFE) && InRange(r, KAttemptCount, 0, 2)
    && Is(r, KUsedRetry, Bool(r[KAttemptCount] == Num(2)))
  }

  ghost predicate CompletedReceipt(r: Record) {
    && ReceiptShape(r) && r[KAttemptCount] != Num(0) && Is(r, KOutcome, Str(COMPLETED))
    && InRange(r, KTokensBefore, 0, MAX_SAFE) && InRange(r, KTokensAfter, 0, MAX_SAFE) && HexField(r, KSummaryDigest)
    && KFailureDomain !in r && KFailureCode !in r
  }

  ghost predicate FailedReceipt(r: Record) {
    && ReceiptShape(r) && Is(r, KOutcome, Str(FAILED)) && Is(r, KFailureDomain, Str(COMPACTION))
    && (exists code :: Is(r, KFailureCode, Str(FAILURE(code))))
    && KTokensBefore !in r && KTokensAfter !in r && KSummaryDigest !in r
  }

  lemma ReceiptShapeExactly(r: Record)
    ensures ReceiptShape(r) <==>
      && r.Keys <= ReceiptKeySet() && Is(r, KCount, Num(1)) && Is(r, KReason, Str(THRESHOLD))
      && Is(r, KTriggerPercent, Num(75)) && Is(r, KWillRetry, Bool(false)) && CountersOk(r, 2)
        && IsCount(r, KDuration, 0)
      && Is(r, KUsedRetry, Bool(r[KAttemptCount].n == 2))
  {
  }

  lemma FailedKeysExactly(r: Record)
    requires ReceiptShape(r) && KOutcome in r && KFailureDomain in r && KFailureCode in r
    ensures r.Keys == FailedReceiptKeySet() <==> KTokensBefore !in r && KTokensAfter !in r && KSummaryDigest !in r
  {
    if KTokensBefore !in r && KTokensAfter !in r && KSummaryDigest !in r {
      assert forall k :: k in r <==> k in FailedReceiptKeySet();
    }
  }

  /** The evidence reader accepts exactly the completed and the failed receipts, unchanged. */
  lemma SafeReceiptExactly(r: Record)
    ensures SafeReceipt(r) == if CompletedReceipt(r) || FailedReceipt(r) then Some(r) else None
  {
    ReceiptShapeExactly(r);
    if ReceiptShape(r) { OutcomeExactly(r); }
    hide ReceiptShape, CountersOk, ReceiptKeySet, FailedReceiptKeySet, IsCount, InRange, IsDigest, Is, IsCode;
  }

  lemma OutcomeExactly(r: Record)
    requires ReceiptShape(r)
    ensures KAttemptCount in r && r[KAttemptCount].Num?
    ensures FailedReceipt(r) <==>
      && r.Keys == FailedReceiptKeySet() && Is(r, KOutcome, Str(FAILED))
      && Is(r, KFailureDomain, Str(COMPACTION)) && IsCode(r)
    ensures CompletedReceipt(r) <==> Is(r, KOutcome, Str(COMPLETED)) && CompletionChecks(r)
  {
    if KOutcome in r && KFailureDomain in r && KFailureCode in r { FailedKeysExactly(r); }
    assert r[KAttemptCount].n >= 0;
    hide ReceiptShape, FailedReceiptKeySet, IsLowerHex64;
  }

  // ----- the pair, end to end -----

  predicate ShortAscii(t: Text) {
    |t| <= 256 && forall i :: 0 <= i < |t| ==> t[i] < 0x80
  }

  lemma CodesAreShort(code: Code)
    ensures ShortAscii(CodeText(code))
  {
  }

  lemma WordsAreAscii(w: Word)
    requires w.Other? ==> IsLowerHex64(w.text)
    ensures ShortAscii(Spell(w))
  {
    if w.FAILURE? { CodesAreShort(w.code); }
    hide CodeText;
  }

  /** Every word the protocol names is far below the projection's limit. */
  lemma WordsAreShort(w: Word)
    requires w.Other? ==> IsLowerHex64(w.text)
    ensures ByteLength(Spell(w)) <= 256
  {
    WordsAreAscii(w);
    hide Spell;
    AsciiByteLength(Spell(w));
  }

  /** The digest of a summary is what SHA-256 writes: 64 lower-case hexadecimal digits. */
  ghost predicate DigestOk(digestOf: Text -> Text) {
    forall t: Text :: IsLowerHex64(digestOf(t))
  }

  lemma EventsAreShort(digestOf: Text -> Text, t: Turn)
    requires Triggers(t) && DigestOk(digestOf)
    ensures forall i :: 0 <= i < 2 ==> ShortTexts(TurnEvents(digestOf, t, 1)[i])
  {
    forall w: Word | w.Other? ==> IsLowerHex64(w.text) ensures ByteLength(Spell(w)) <= 256 { WordsAreShort(w); }
    hide Spell, Triggers, IsLowerHex64;
  }

  /** What projecting an event of the protocol's own shape gives: the same record with its metadata. */
  lemma ProjectedIs(e: Record, type_: Word, meta: Metadata, p: Record)
    requires Projects(e, type_, meta, p) && Is(e, KType, Str(type_)) && ShortTexts(e)
    requires KWillRetry in e && KUsedRetry in e && e[KWillRetry].Bool? && e[KUsedRetry].Bool?
    requires forall k :: k in e ==>
      k == KType || k == KWillRetry || k == KUsedRetry || KeepsText(e, k) || KeepsCount(e, k)
    ensures p == e[KPayloadBytes := Num(meta.bytes)][KPayloadDigest := Str(Other(meta.digest))]
  {
    hide Spell;
    var q := e[KPayloadBytes := Num(meta.bytes)][KPayloadDigest := Str(Other(meta.digest))];
    forall k: Key ensures (k in p <==> k in q) && (k in p ==> p[k] == q[k]) {}
  }

  function BaseKeySet(): set<Key> {
    {
    KType, KSource, KReason, KCount, KTriggerPercent, KContextTokens, KContextWindow, KWillRetry,
        KPayloadByteEstimate, KAttemptCount, KUsedRetry}
  }

  /** The fields every compaction event shares. */
  predicate SharedFields(e: Record, t: Turn, bytes: nat, attempts: nat) {
    && Is(e, KSource, Str(CONTROLLED))
    && Is(e, KReason, Str(THRESHOLD))
    && Is(e, KCount, Num(1))
    && Is(e, KTriggerPercent, Num(TRIGGER_PERCENT))
    && Is(e, KContextTokens, Num(t.contextTokens))
    && t.contextWindow.Some?
    && Is(e, KContextWindow, Num(t.contextWindow.value))
    && Is(e, KPayloadByteEstimate, Num(bytes))
    && Is(e, KAttemptCount, Num(attempts))
    && Is(e, KWillRetry, Bool(false))
  }

  lemma StartFields(t: Turn, bytes: nat, attempts: nat)
    requires Triggers(t)
    ensures var e := StartEvent(t, 1, bytes, attempts);
      SharedFields(e, t, bytes, attempts) && Is(e, KType, Str(COMPACTION_START)) && Is(e, KUsedRetry, Bool(false))
      && e.Keys == StartKeySet() - {KPayloadBytes, KPayloadDigest}
  {
  }

  lemma BaseFields(t: Turn, type_: Word, bytes: nat, attempts: nat)
    requires Triggers(t)
    ensures var e := Base(t, type_, 1, bytes, attempts);
      SharedFields(e, t, bytes, attempts) && Is(e, KType, Str(type_)) && Is(e, KUsedRetry, Bool(attempts == 2))
          && e.Keys == BaseKeySet()
  {
  }

  lemma FailureFields(t: Turn, bytes: nat, attempts: nat, duration: nat, code: Code)
    requires Triggers(t)
    ensures var e := FailureEvent(t, 1, bytes, attempts, duration, code);
      SharedFields(e, t, bytes, attempts) && Is(e, KType, Str(COMPACTION_END)) && Is(e, KUsedRetry, Bool(attempts == 2))
      && Is(e, KDuration, Num(duration))
      && Is(e, KOutcome, Str(FAILED))
      && Is(e, KFailureDomain, Str(COMPACTION))
      && Is(e, KFailureCode, Str(FAILURE(code)))
      && e.Keys == BaseKeySet() + {KDuration, KOutcome, KFailureDomain, KFailureCode}
  {
    BaseFields(t, COMPACTION_END, bytes, attempts);
    hide Base, Triggers;
  }

  lemma CompletedFields(t: Turn, bytes: nat, attempts: nat, before: int, after: int, digest: Text)
    requires Triggers(t)
    ensures var e := CompletedEvent(t, 1, bytes, attempts, before, after, digest);
      SharedFields(e, t, bytes, attempts) && Is(e, KType, Str(COMPACTION_END)) && Is(e, KUsedRetry, Bool(attempts == 2))
      && Is(e, KDuration, Num(t.duration))
      && Is(e, KOutcome, Str(COMPLETED))
      && Is(e, KTokensBefore, Num(before))
      && Is(e, KTokensAfter, Num(after)) && Is(e, KSummaryDigest, Str(Other(digest)))
      && e.Keys == BaseKeySet() + {KDuration, KOutcome, KTokensBefore, KTokensAfter, KSummaryDigest}
  {
    BaseFields(t, COMPACTION_END, bytes, attempts);
    hide Base, Triggers;
  }

  predicate WithMetadata(e: Record, meta: Metadata, p: Record) {
    && p.Keys == e.Keys + {KPayloadBytes, KPayloadDigest}
    && (forall k :: k in e && k != KPayloadBytes && k != KPayloadDigest ==> p[k] == e[k])
    && p[KPayloadBytes] == Num(meta.bytes) && p[KPayloadDigest] == Str(Other(meta.digest))
  }

  lemma MetadataAt(e: Record, meta: Metadata, p: Record, k: Key)
    requires WithMetadata(e, meta, p) && k in e && k != KPayloadBytes && k != KPayloadDigest
    ensures k in p && p[k] == e[k]
  {
  }

  lemma MetadataKeys(e: Record, meta: Metadata, p: Record, allowed: set<Key>)
    requires WithMetadata(e, meta, p)
      && e.Keys <= allowed
      && KPayloadBytes in allowed
      && KPayloadDigest in allowed
    ensures p.Keys <= allowed
      && (KFailureDomain !in e ==> KFailureDomain !in p)
      && (KFailureCode !in e ==> KFailureCode !in p)
  {
  }

  /** A start event's fields are still there after projection. */
  lemma StartProjected(t: Turn, bytes: nat, attempts: nat, meta: Metadata, p: Record)
    requires Triggers(t) && MetadataOk(meta) && bytes <= MAX_SAFE && attempts <= 1
    requires WithMetadata(StartEvent(t, 1, bytes, attempts), meta, p)
    ensures BaseOk(p)
      && p.Keys <= StartKeySet()
      && CountersOk(p, 1)
      && Is(p, KUsedRetry, Bool(false))
      && Is(p, KType, Str(COMPACTION_START))
  {
    StartFields(t, bytes, attempts);
    var e := StartEvent(t, 1, bytes, attempts);
    hide StartEvent, IsLowerHex64;
    assert p.Keys == StartKeySet();
    assert forall k :: k in StartKeySet() - {KPayloadBytes, KPayloadDigest} ==> p[k] == e[k];
  }

  /** The start event, projected, takes the phase machine from idle to started. */
  lemma StartIsAccepted(t: Turn, bytes: nat, attempts: nat, meta: Metadata, p: Record)
    requires Triggers(t) && MetadataOk(meta) && bytes <= MAX_SAFE && attempts <= 1
    requires WithMetadata(StartEvent(t, 1, bytes, attempts), meta, p)
    ensures Accept(true, p, Idle) == Acceptance(Started, None, false, None)
  {
    StartProjected(t, bytes, attempts, meta, p);
    hide StartEvent, WithMetadata, BaseOk, CountersOk, Is, AcceptEnd;
  }

  /** The part of an end event its counters and base make up. */
  predicate EndBase(p: Record) {
    BaseOk(p) && CountersOk(p, 2) && IsCount(p, KDuration, 0) && Is(p, KUsedRetry, Bool(p[KAttemptCount].n == 2))
        && Is(p, KType, Str(COMPACTION_END))
  }

  lemma FieldKept(e: Record, meta: Metadata, p: Record, k: Key, f: Value)
    requires WithMetadata(e, meta, p) && Is(e, k, f) && k != KPayloadBytes && k != KPayloadDigest
    ensures Is(p, k, f)
  {
    MetadataAt(e, meta, p, k);
  }

  lemma SharedKept(e: Record, t: Turn, bytes: nat, attempts: nat, meta: Metadata, p: Record)
    requires WithMetadata(e, meta, p) && SharedFields(e, t, bytes, attempts)
    ensures SharedFields(p, t, bytes, attempts)
  {
    hide WithMetadata, Is;
    forall k, f | Is(e, k, f) && k != KPayloadBytes && k != KPayloadDigest ensures Is(p, k, f) {
      FieldKept(e, meta, p, k, f);
    }
  }

  lemma EndBaseHolds(t: Turn, bytes: nat, attempts: nat, duration: nat, e: Record, meta: Metadata, p: Record)
    requires Triggers(t)
      && MetadataOk(meta)
      && bytes <= MAX_SAFE
      && attempts <= 2
      && duration <= MAX_SAFE
      && WithMetadata(e, meta, p)
    requires SharedFields(e, t, bytes, attempts)
      && Is(e, KType, Str(COMPACTION_END))
      && Is(e, KUsedRetry, Bool(attempts == 2))
      && Is(e, KDuration, Num(duration))
    ensures EndBase(p) && p[KAttemptCount] == Num(attempts)
  {
    SharedKept(e, t, bytes, attempts, meta, p);
    FieldKept(e, meta, p, KType, Str(COMPACTION_END));
    FieldKept(e, meta, p, KUsedRetry, Bool(attempts == 2));
    FieldKept(e, meta, p, KDuration, Num(duration));
    assert IsDigest(p[KPayloadDigest]) && IsCount(p, KPayloadBytes, 0);
    hide IsLowerHex64, WithMetadata, IsDigest, MetadataOk;
  }

  lemma AcceptFailed(p: Record, code: Code)
    requires EndBase(p)
      && p.Keys <= FailureKeySet()
      && Is(p, KOutcome, Str(FAILED))
      && Is(p, KFailureDomain, Str(COMPACTION))
    requires Is(p, KFailureCode, Str(FAILURE(code)))
      && (code.ProviderTransientCode? || code.ProviderPermanentCode? ==> p[KAttemptCount].n >= 1)
    ensures Accept(true, p, Started) == Acceptance(Ended, Some(ReceiptOf(p, {KFailureDomain, KFailureCode})), true,
        Some(Str(FAILURE(code))))
  {
    assert IsCode(p);
    assert IsProviderCode(p) ==> p[KAttemptCount].n >= 1;
    assert p.Keys <= EndKeySet();
    hide BaseOk, CountersOk, IsCode, IsProviderCode, ReceiptOf;
  }

  lemma ReceiptLookup(p: Record, extra: set<Key>, k: Key)
    requires k in p && (k in ReceiptBaseKeySet() || k in extra)
    ensures k in ReceiptOf(p, extra) && ReceiptOf(p, extra)[k] == p[k]
  {
  }

  /** The receipt keeps the counters and base of the event it was made from. */
  lemma ReceiptBase(p: Record, extra: set<Key>)
    requires EndBase(p) && KOutcome in p
    ensures var r := ReceiptOf(p, extra);
      && Is(r, KCount, Num(1))
      && Is(r, KReason, Str(THRESHOLD))
      && Is(r, KTriggerPercent, Num(75))
      && Is(r, KWillRetry, Bool(false))
      && CountersOk(r, 2)
      && IsCount(r, KDuration, 0)
      && Is(r, KUsedRetry, Bool(r[KAttemptCount].n == 2))
      && Is(r, KOutcome, p[KOutcome])
      && r[KAttemptCount] == p[KAttemptCount]
  {
    ReceiptLookup(p, extra, KCount); ReceiptLookup(p, extra, KReason); ReceiptLookup(p, extra, KTriggerPercent);
    ReceiptLookup(p, extra, KContextTokens); ReceiptLookup(p, extra, KContextWindow); ReceiptLookup(p, extra,
        KPayloadByteEstimate);
    ReceiptLookup(p, extra, KAttemptCount); ReceiptLookup(p, extra, KDuration); ReceiptLookup(p, extra, KUsedRetry);
    ReceiptLookup(p, extra, KOutcome); ReceiptLookup(p, extra, KWillRetry);
    hide ReceiptOf, IsLowerHex64;
  }

  lemma ReceiptKeys(p: Record, extra: set<Key>)
    requires ReceiptBaseKeySet() + extra <= p.Keys
    ensures ReceiptOf(p, extra).Keys == ReceiptBaseKeySet() + extra
  {
  }

  lemma FailedReceiptIsSafe(p: Record, code: Code)
    requires EndBase(p)
      && Is(p, KOutcome, Str(FAILED))
      && Is(p, KFailureDomain, Str(COMPACTION))
      && Is(p, KFailureCode, Str(FAILURE(code)))
    ensures var r := ReceiptOf(p, {KFailureDomain, KFailureCode});
      SafeReceipt(r) == Some(r) && Is(r, KOutcome, Str(FAILED)) && Is(r, KFailureCode, Str(FAILURE(code)))
  {
    var extra := {KFailureDomain, KFailureCode};
    ReceiptBase(p, extra);
    ReceiptKeys(p, extra);
    ReceiptLookup(p, extra, KFailureDomain);
    ReceiptLookup(p, extra, KFailureCode);
    var r := ReceiptOf(p, extra);
    hide ReceiptOf, CountersOk, BaseOk, EndBase;
    assert IsCode(r);
    assert ReceiptBaseKeySet() + extra == FailedReceiptKeySet() && r.Keys <= ReceiptKeySet();
  }

  lemma CompletedReceiptIsSafe(p: Record)
    requires EndBase(p) && Is(p, KOutcome, Str(COMPLETED)) && p[KAttemptCount].n >= 1
    requires IsCount(p, KTokensBefore, 0)
      && IsCount(p, KTokensAfter, 0)
      && KSummaryDigest in p
      && IsDigest(p[KSummaryDigest])
    ensures var r := ReceiptOf(p, {KTokensBefore, KTokensAfter, KSummaryDigest});
      SafeReceipt(r) == Some(r) && Is(r, KOutcome, Str(COMPLETED)) && r[KTokensAfter] == p[KTokensAfter]
          && r[KSummaryDigest] == p[KSummaryDigest]
  {
    var extra := {KTokensBefore, KTokensAfter, KSummaryDigest};
    ReceiptBase(p, extra);
    ReceiptKeys(p, extra);
    ReceiptLookup(p, extra, KTokensBefore);
    ReceiptLookup(p, extra, KTokensAfter);
    ReceiptLookup(p, extra, KSummaryDigest);
    var r := ReceiptOf(p, extra);
    hide ReceiptOf, CountersOk, BaseOk, EndBase, IsLowerHex64;
    assert KFailureDomain !in r.Keys && KFailureCode !in r.Keys && r.Keys <= ReceiptKeySet();
  }

  lemma AcceptCompleted(p: Record)
    requires EndBase(p)
      && p.Keys <= EndKeySet()
      && KFailureDomain !in p
      && KFailureCode !in p
      && Is(p, KOutcome, Str(COMPLETED))
      && p[KAttemptCount].n >= 1
    requires IsCount(p, KTokensBefore, 0)
      && IsCount(p, KTokensAfter, 0)
      && KSummaryDigest in p
      && IsDigest(p[KSummaryDigest])
    ensures Accept(true, p, Started) == Acceptance(Ended,
        Some(ReceiptOf(p, {KTokensBefore, KTokensAfter, KSummaryDigest})), false, None)
  {
    hide BaseOk, CountersOk, ReceiptOf, IsLowerHex64;
  }

  /** How an end event is taken: the machine ends, and the evidence reader accepts the receipt unchanged, with
    * the outcome and failure code the hook reported. */
  predicate TakenAs(p: Record, failure: Option<Code>) {
    var a := Accept(true, p, Started);
    && a.phase.Ended? && a.receipt.Some? && a.error == failure.Some?
    && a.failureCode == (if failure.Some? then Some(Str(FAILURE(failure.value))) else None)
    && SafeReceipt(a.receipt.value) == a.receipt
    && Is(a.receipt.value, KOutcome, Str(if failure.Some? then FAILED else COMPLETED))
    && (failure.Some? ==> Is(a.receipt.value, KFailureCode, Str(FAILURE(failure.value))))
  }

  /** The numbers of an end event. */
  predicate Numbers(r: Record, t: Turn, bytes: nat, attempts: nat, duration: nat) {
    && t.contextWindow.Some? && Is(r, KContextTokens, Num(t.contextTokens))
      && Is(r, KContextWindow, Num(t.contextWindow.value))
    && Is(r, KPayloadByteEstimate, Num(bytes)) && Is(r, KAttemptCount, Num(attempts)) && Is(r, KDuration, Num(duration))
  }

  lemma ReceiptNumbers(p: Record, extra: set<Key>, t: Turn, bytes: nat, attempts: nat, duration: nat)
    requires Numbers(p, t, bytes, attempts, duration)
    ensures Numbers(ReceiptOf(p, extra), t, bytes, attempts, duration)
  {
    ReceiptLookup(p, extra, KContextTokens);
    ReceiptLookup(p, extra, KContextWindow);
    ReceiptLookup(p, extra, KPayloadByteEstimate);
    ReceiptLookup(p, extra, KAttemptCount);
    ReceiptLookup(p, extra, KDuration);
    hide ReceiptOf;
  }

  lemma EventNumbers(e: Record, t: Turn, bytes: nat, attempts: nat, duration: nat, meta: Metadata, p: Record)
    requires SharedFields(e, t, bytes, attempts) && Is(e, KDuration, Num(duration)) && WithMetadata(e, meta, p)
    ensures Numbers(p, t, bytes, attempts, duration)
  {
    SharedKept(e, t, bytes, attempts, meta, p);
    FieldKept(e, meta, p, KDuration, Num(duration));
    hide WithMetadata;
  }

  lemma FailureProjected(t: Turn, bytes: nat, attempts: nat, duration: nat, code: Code, meta: Metadata, p: Record)
    requires Triggers(t)
      && MetadataOk(meta)
      && bytes <= MAX_SAFE
      && attempts <= 2
      && duration <= MAX_SAFE
    requires WithMetadata(FailureEvent(t, 1, bytes, attempts, duration, code), meta, p)
    ensures EndBase(p) && p[KAttemptCount] == Num(attempts)
    ensures Is(p, KOutcome, Str(FAILED))
      && Is(p, KFailureDomain, Str(COMPACTION))
      && Is(p, KFailureCode, Str(FAILURE(code)))
    ensures Numbers(p, t, bytes, attempts, duration)
  {
    var e := FailureEvent(t, 1, bytes, attempts, duration, code);
    FailureFields(t, bytes, attempts, duration, code);
    hide FailureEvent, BaseOk, CountersOk, EndBase, IsLowerHex64, Triggers, Numbers;
    EventNumbers(e, t, bytes, attempts, duration, meta, p);
    EndBaseHolds(t, bytes, attempts, duration, e, meta, p);
    MetadataAt(e, meta, p, KOutcome);
    MetadataAt(e, meta, p, KFailureDomain);
    MetadataAt(e, meta, p, KFailureCode);
  }

  lemma FailureKeys(t: Turn, bytes: nat, attempts: nat, duration: nat, code: Code, meta: Metadata, p: Record)
    requires Triggers(t) && WithMetadata(FailureEvent(t, 1, bytes, attempts, duration, code), meta, p)
    ensures p.Keys <= FailureKeySet()
  {
    var e := FailureEvent(t, 1, bytes, attempts, duration, code);
    FailureFields(t, bytes, attempts, duration, code);
    hide FailureEvent, SharedFields;
    MetadataKeys(e, meta, p, FailureKeySet());
  }

  lemma FailureIsTaken(t: Turn, bytes: nat, attempts: nat, duration: nat, code: Code, meta: Metadata, p: Record)
    requires Triggers(t)
      && MetadataOk(meta)
      && bytes <= MAX_SAFE
      && attempts <= 2
      && duration <= MAX_SAFE
    requires code.ProviderTransientCode? || code.ProviderPermanentCode? ==> attempts >= 1
    requires WithMetadata(FailureEvent(t, 1, bytes, attempts, duration, code), meta, p)
    ensures TakenAs(p, Some(code)) && Numbers(Accept(true, p, Started).receipt.value, t, bytes, attempts, duration)
  {
    FailureProjected(t, bytes, attempts, duration, code, meta, p);
    FailureKeys(t, bytes, attempts, duration, code, meta, p);
    hide FailureEvent, WithMetadata, Accept, SafeReceipt, ReceiptOf, BaseOk, CountersOk, EndBase, IsLowerHex64,
        Triggers, Numbers;
    AcceptFailed(p, code);
    ReceiptNumbers(p, {KFailureDomain, KFailureCode}, t, bytes, attempts, duration);
    FailedReceiptIsSafe(p, code);
  }

  lemma CompletedProjected(t: Turn, bytes: nat, attempts: nat, before: int, after: int, digest: Text,
      meta: Metadata, p: Record)
    requires TurnOk(t) && Triggers(t) && MetadataOk(meta) && bytes <= MAX_SAFE && attempts <= 2
    requires WithMetadata(CompletedEvent(t, 1, bytes, attempts, before, after, digest), meta, p)
    ensures EndBase(p) && p[KAttemptCount] == Num(attempts) && Is(p, KOutcome, Str(COMPLETED))
    ensures Is(p, KTokensBefore, Num(before))
      && Is(p, KTokensAfter, Num(after))
      && Is(p, KSummaryDigest, Str(Other(digest)))
    ensures Numbers(p, t, bytes, attempts, t.duration)
  {
    var e := CompletedEvent(t, 1, bytes, attempts, before, after, digest);
    CompletedFields(t, bytes, attempts, before, after, digest);
    hide CompletedEvent, BaseOk, CountersOk, EndBase, IsLowerHex64, Triggers, Numbers;
    EventNumbers(e, t, bytes, attempts, t.duration, meta, p);
    EndBaseHolds(t, bytes, attempts, t.duration, e, meta, p);
    MetadataAt(e, meta, p, KOutcome);
    MetadataAt(e, meta, p, KTokensBefore);
    MetadataAt(e, meta, p, KTokensAfter);
    MetadataAt(e, meta, p, KSummaryDigest);
  }

  lemma CompletedLacks(t: Turn, bytes: nat, attempts: nat, before: int, after: int, digest: Text)
    requires Triggers(t)
    ensures var e := CompletedEvent(t, 1, bytes, attempts, before, after, digest);
      KFailureDomain !in e && KFailureCode !in e
  {
    BaseFields(t, COMPACTION_END, bytes, attempts);
    var b := Base(t, COMPACTION_END, 1, bytes, attempts);
    assert KFailureDomain !in b.Keys && KFailureCode !in b.Keys;
    hide Base, SharedFields;
  }

  lemma CompletedKeys(t: Turn, bytes: nat, attempts: nat, before: int, after: int, digest: Text, meta: Metadata,
      p: Record)
    requires Triggers(t)
      && WithMetadata(CompletedEvent(t, 1, bytes, attempts, before, after, digest), meta, p)
    ensures p.Keys <= EndKeySet() && KFailureDomain !in p && KFailureCode !in p
  {
    var e := CompletedEvent(t, 1, bytes, attempts, before, after, digest);
    CompletedFields(t, bytes, attempts, before, after, digest);
    CompletedLacks(t, bytes, attempts, before, after, digest);
    hide CompletedEvent, SharedFields, Triggers;
    MetadataKeys(e, meta, p, EndKeySet());
  }

  predicate Summarises(r: Record, before: int, after: int, digest: Text) {
    Is(r, KTokensBefore, Num(before)) && Is(r, KTokensAfter, Num(after)) && Is(r, KSummaryDigest, Str(Other(digest)))
  }

  lemma ReceiptSummary(p: Record, before: int, after: int, digest: Text)
    requires Is(p, KTokensBefore, Num(before)) && Is(p, KTokensAfter, Num(after))
      && Is(p, KSummaryDigest, Str(Other(digest)))
    ensures Summarises(ReceiptOf(p, {KTokensBefore, KTokensAfter, KSummaryDigest}), before, after, digest)
  {
    ReceiptLookup(p, {KTokensBefore, KTokensAfter, KSummaryDigest}, KTokensBefore);
    ReceiptLookup(p, {KTokensBefore, KTokensAfter, KSummaryDigest}, KTokensAfter);
    ReceiptLookup(p, {KTokensBefore, KTokensAfter, KSummaryDigest}, KSummaryDigest);
    hide ReceiptOf;
  }

  lemma CompletedIsTaken(t: Turn, bytes: nat, attempts: nat, before: int, after: int, digest: Text, meta: Metadata,
      p: Record)
    requires TurnOk(t) && Triggers(t) && MetadataOk(meta) && bytes <= MAX_SAFE && 1 <= attempts <= 2
    requires IsSafe(before) && before >= 0 && IsSafe(after) && after >= 0 && IsLowerHex64(digest)
    requires WithMetadata(CompletedEvent(t, 1, bytes, attempts, before, after, digest), meta, p)
    ensures TakenAs(p, None)
    ensures var r := Accept(true, p, Started).receipt.value;
      Numbers(r, t, bytes, attempts, t.duration) && Summarises(r, before, after, digest)
  {
    hide CompletedEvent, WithMetadata, Accept, SafeReceipt, ReceiptOf, BaseOk, CountersOk, EndBase, IsLowerHex64,
        Triggers, TurnOk, MetadataOk, EndKeySet, Numbers, Summarises;
    CompletedProjected(t, bytes, attempts, before, after, digest, meta, p);
    CompletedKeys(t, bytes, attempts, before, after, digest, meta, p);
    AcceptCompleted(p);
    CompletedReceiptIsSafe(p);
    ReceiptNumbers(p, {KTokensBefore, KTokensAfter, KSummaryDigest}, t, bytes, attempts, t.duration);
    ReceiptSummary(p, before, after, digest);
  }

  lemma ProjectedHasMetadata(e: Record, type_: Word, meta: Metadata, p: Record)
    requires Projects(e, type_, meta, p)
      && Is(e, KType, Str(type_))
      && ShortTexts(e)
      && KPayloadBytes !in e
      && KPayloadDigest !in e
    requires KWillRetry in e && KUsedRetry in e && e[KWillRetry].Bool? && e[KUsedRetry].Bool?
    requires forall k :: k in e ==>
      k == KType || k == KWillRetry || k == KUsedRetry || KeepsText(e, k) || KeepsCount(e, k)
    ensures WithMetadata(e, meta, p)
  {
    ProjectedIs(e, type_, meta, p);
    hide Projects, KeepsText, KeepsCount, ShortTexts;
  }

  /** The start event of a triggered turn survives the projection and takes the phase machine from idle to started. */
  lemma StartTaken(digestOf: Text -> Text, t: Turn, meta: Metadata, p: Record)
    requires TurnOk(t) && Triggers(t) && DigestOk(digestOf) && MetadataOk(meta)
    requires Projects(TurnEvents(digestOf, t, 1)[0], COMPACTION_START, meta, p)
    ensures Accept(true, p, Idle) == Acceptance(Started, None, false, None)
  {
    EventsAreShort(digestOf, t);
    hide ShortTexts;
    var bytes := if t.preparation.Serialized? then t.preparation.bytes else 0;
    StartFields(t, bytes, if t.preparation.Serialized? then 1 else 0);
    StartKept(t, bytes, if t.preparation.Serialized? then 1 else 0);
    ProjectedHasMetadata(TurnEvents(digestOf, t, 1)[0], COMPACTION_START, meta, p);
    StartIsAccepted(t, bytes, if t.preparation.Serialized? then 1 else 0, meta, p);
    hide Accept, StartEvent, Projects, SharedFields, Triggers;
  }

  /** Every triggered turn's pair survives the projection and is taken: the start event takes the phase machine
    * from idle to started without an error, and the end event is taken with the failure the hook threw, or
    * none. */
  lemma PairIsTaken(digestOf: Text -> Text, t: Turn, m1: Metadata, p1: Record, m2: Metadata, p2: Record)
    requires TurnOk(t) && Triggers(t) && DigestOk(digestOf) && MetadataOk(m1) && MetadataOk(m2)
    requires Projects(TurnEvents(digestOf, t, 1)[0], COMPACTION_START, m1, p1)
      && Projects(TurnEvents(digestOf, t, 1)[1], COMPACTION_END, m2, p2)
    ensures Accept(true, p1, Idle) == Acceptance(Started, None, false, None)
    ensures TakenAs(p2, TurnFailure(t)) && Reports(digestOf, t, Accept(true, p2, Started).receipt.value)
    ensures TurnFailure(t).None? <==> Completes(t)
    ensures forall code :: TurnFailure(t) == Some(code) <==> FailsWith(t, code)
  {
    StartTaken(digestOf, t, m1, p1);
    EndIsTaken(digestOf, t, m2, p2);
    FailureIs(t);
    hide Completes, FailsWith, TurnFailure, Reports, Accept, Projects, SafeReceipt, Is, Triggers, TurnOk, TurnEvents;
  }

  lemma StartKept(t: Turn, bytes: nat, attempts: nat)
    requires Triggers(t) && bytes <= MAX_SAFE && attempts <= 1
    ensures var e := StartEvent(t, 1, bytes, attempts);
      forall k :: k in e ==> k == KType || k == KWillRetry || k == KUsedRetry || KeepsText(e, k) || KeepsCount(e, k)
  {
    StartFields(t, bytes, attempts);
    hide StartEvent;
  }

  predicate KeptField(e: Record, k: Key) {
    k == KType || k == KWillRetry || k == KUsedRetry || KeepsText(e, k) || KeepsCount(e, k)
  }

  /** An end event all of whose fields the projection keeps. */
  predicate KeptEnd(e: Record) {
    && (forall k :: k in e ==> KeptField(e, k))
    && KWillRetry in e
    && e[KWillRetry].Bool?
    && KUsedRetry in e
    && e[KUsedRetry].Bool?
    && Is(e, KType, Str(COMPACTION_END))
    && KPayloadBytes !in e && KPayloadDigest !in e
  }

  lemma BaseFieldKept(t: Turn, bytes: nat, attempts: nat, k: Key)
    requires Triggers(t) && bytes <= MAX_SAFE && attempts <= 2 && k in BaseKeySet()
    ensures KeptField(Base(t, COMPACTION_END, 1, bytes, attempts), k)
  {
    BaseFields(t, COMPACTION_END, bytes, attempts);
    hide Base;
    if IsTextKey(k) {
      assert k.KSource? || k.KReason?;
    } else if IsCountKey(k) {
      assert k.KCount? || k.KTriggerPercent? || k.KContextTokens? || k.KContextWindow? || k.KPayloadByteEstimate?
        || k.KAttemptCount?;
    }
  }

  lemma BaseKept(t: Turn, bytes: nat, attempts: nat)
    requires Triggers(t) && bytes <= MAX_SAFE && attempts <= 2
    ensures KeptEnd(Base(t, COMPACTION_END, 1, bytes, attempts))
  {
    BaseFields(t, COMPACTION_END, bytes, attempts);
    var e := Base(t, COMPACTION_END, 1, bytes, attempts);
    hide Base, BaseKeySet;
    forall k | k in e ensures KeptField(e, k) { BaseFieldKept(t, bytes, attempts, k); }
    hide Triggers, KeptField, KeepsText, KeepsCount;
  }

  lemma KeptCount(e: Record, k: Key, n: int)
    requires KeptEnd(e) && IsCountKey(k) && IsSafe(n) && n >= 0
    ensures KeptEnd(e[k := Num(n)])
  {
    var f := e[k := Num(n)];
    forall x | x in f ensures KeptField(f, x) {
      assert x != k ==> f[x] == e[x];
    }
  }

  lemma KeptText(e: Record, k: Key, w: Word)
    requires KeptEnd(e) && IsTextKey(k)
    ensures KeptEnd(e[k := Str(w)])
  {
    var f := e[k := Str(w)];
    forall x | x in f ensures KeptField(f, x) {
      assert x != k ==> f[x] == e[x];
    }
  }

  lemma EndIsTaken(digestOf: Text -> Text, t: Turn, meta: Metadata, p: Record)
    requires TurnOk(t) && Triggers(t) && DigestOk(digestOf) && MetadataOk(meta)
    requires Projects(TurnEvents(digestOf, t, 1)[1], COMPACTION_END, meta, p)
    ensures TakenAs(p, TurnFailure(t)) && Reports(digestOf, t, Accept(true, p, Started).receipt.value)
  {
    var bytes := if t.preparation.Serialized? then t.preparation.bytes else 0;
    var e := TurnEvents(digestOf, t, 1)[1];
    EventsAreShort(digestOf, t);
    hide ShortTexts;
    var duration := if t.preparation.Serialized? then t.duration else 0;
    var attempts := TurnRequests(t);
    match TurnFailure(t)
    case Some(code) =>
      FailureKept(t, bytes, attempts, duration, code);
      ProjectedHasMetadata(e, COMPACTION_END, meta, p);
      FailureIsTaken(t, bytes, attempts, duration, code, meta, p);
      FailureReports(digestOf, t, Accept(true, p, Started).receipt.value);
    case None =>
      var x := (if Attempts(t) == 1 then t.first else t.second).summary;
      CompletedKept(t, bytes, attempts, x.tokensBefore.value, TokensAfter(x), digestOf(x.text.value));
      ProjectedHasMetadata(e, COMPACTION_END, meta, p);
      CompletedIsTaken(t, bytes, attempts, x.tokensBefore.value, TokensAfter(x), digestOf(x.text.value), meta, p);
      CompletionReports(digestOf, t, x, Accept(true, p, Started).receipt.value);
  }

  lemma FailureReports(digestOf: Text -> Text, t: Turn, r: Record)
    requires TurnFailure(t).Some?
    requires Numbers(r, t, if t.preparation.Serialized? then t.preparation.bytes else 0, TurnRequests(t),
                     if t.preparation.Serialized? then t.duration else 0)
    ensures Reports(digestOf, t, r)
  {
    TurnEndsExactly(t);
    assert !Completes(t);
    assert forall x, n :: CountsAfter(x, n) ==> Countable(x);
    hide TurnFailure, Returns, WellMade, Installed, CountsAfter, Countable, Is;
  }

  lemma CompletionReports(digestOf: Text -> Text, t: Turn, x: Summary, r: Record)
    requires TurnFailure(t).None? && x == (if Attempts(t) == 1 then t.first else t.second).summary
    requires Numbers(r, t, t.preparation.bytes, TurnRequests(t), t.duration)
    requires Summarises(r, x.tokensBefore.value, TokensAfter(x), digestOf(x.text.value))
    ensures Reports(digestOf, t, r)
  {
    SummaryExactly(x);
    assert forall y :: Returns(t, y) ==> y == x;
    hide TurnFailure, Returns, WellMade, Installed, CountsAfter, TokensAfter, Is;
  }

  lemma FailureKept(t: Turn, bytes: nat, attempts: nat, duration: nat, code: Code)
    requires Triggers(t) && bytes <= MAX_SAFE && attempts <= 2 && duration <= MAX_SAFE
    ensures KeptEnd(FailureEvent(t, 1, bytes, attempts, duration, code))
  {
    BaseKept(t, bytes, attempts);
    var e := Base(t, COMPACTION_END, 1, bytes, attempts);
    hide KeptEnd, Base, Triggers;
    KeptCount(e, KDuration, duration);
    KeptText(e[KDuration := Num(duration)], KOutcome, FAILED);
    KeptText(e[KDuration := Num(duration)][KOutcome := Str(FAILED)], KFailureDomain, COMPACTION);
    KeptText(e[KDuration := Num(duration)][KOutcome := Str(FAILED)][KFailureDomain := Str(COMPACTION)],
        KFailureCode, FAILURE(code));
  }

  lemma CompletedKept(t: Turn, bytes: nat, attempts: nat, before: int, after: int, digest: Text)
    requires TurnOk(t) && Triggers(t) && bytes <= MAX_SAFE && attempts <= 2
    requires IsSafe(before) && before >= 0 && IsSafe(after) && after >= 0
    ensures KeptEnd(CompletedEvent(t, 1, bytes, attempts, before, after, digest))
  {
    BaseKept(t, bytes, attempts);
    var e := Base(t, COMPACTION_END, 1, bytes, attempts);
    hide KeptEnd, Base, Triggers;
    KeptCount(e, KDuration, t.duration);
    KeptText(e[KDuration := Num(t.duration)], KOutcome, COMPLETED);
    var f := e[KDuration := Num(t.duration)][KOutcome := Str(COMPLETED)];
    KeptCount(f, KTokensBefore, before);
    KeptCount(f[KTokensBefore := Num(before)], KTokensAfter, after);
    KeptText(f[KTokensBefore := Num(before)][KTokensAfter := Num(after)], KSummaryDigest, Other(digest));
  }

  // ----- a whole run, from the hook to the receipt -----

  /** The type text of an emitted event. */
  function TypeOf(e: Record): Word {
    if KType in e && e[KType].Str? then e[KType].w else Other([])
  }

  /** What the runner holds once the run is over. */
  datatype Outcomes = Outcomes(phase: Phase, receipt: Option<Record>, error: bool, failureCode: Option<Value>)

  /** How a run must end whose first turn over the threshold is t: with the machine ended and a receipt the evidence
    * reader accepts unchanged, which reports the turn's numbers and completed exactly when the turn completes, and else
    * the one failure code its case gives. */
  ghost predicate EndsAs(digestOf: Text -> Text, o: Outcomes, t: Turn) {
    && o.phase.Ended? && o.receipt.Some? && SafeReceipt(o.receipt.value) == o.receipt
    && Reports(digestOf, t, o.receipt.value)
    && (o.error <==> !Completes(t))
    && (Completes(t) ==> o.failureCode.None? && Is(o.receipt.value, KOutcome, Str(COMPLETED)))
    && (forall code :: FailsWith(t, code) ==>
         && o.failureCode == Some(Str(FAILURE(code))) && Is(o.receipt.value, KOutcome, Str(FAILED))
         && Is(o.receipt.value, KFailureCode, Str(FAILURE(code))))
  }

  method RunHook(digestOf: Text -> Text, turns: seq<Turn>) returns (events: seq<Record>)
    ensures events == RunTurns(digestOf, turns).events
  {
    var hook := new TurnHook(digestOf);
    for i := 0 to |turns|
      invariant fresh(hook) && hook.digestOf == digestOf
      invariant hook.compactionCount == RunTurns(digestOf, turns[..i]).count
      invariant hook.emitted == RunTurns(digestOf, turns[..i]).events
    {
      assert turns[..i + 1][..i] == turns[..i];
      var outcome := hook.NextTurn(turns[i]);
    }
    assert turns[..|turns|] == turns;
    events := hook.emitted;
  }

  lemma TurnEventTypes(digestOf: Text -> Text, t: Turn)
    requires Triggers(t)
    ensures var es := TurnEvents(digestOf, t, 1);
      |es| == 2 && TypeOf(es[0]) == COMPACTION_START && TypeOf(es[1]) == COMPACTION_END
  {
    hide Triggers;
  }

  /** The runner's variables after one more projected event. */
  function Take(o: Outcomes, p: Record): Outcomes {
    var a := Accept(true, p, o.phase);
    Outcomes(a.phase, if a.receipt.Some? then a.receipt else o.receipt, o.error || a.error,
             if a.failureCode.Some? then a.failureCode else o.failureCode)
  }

  lemma EndTaken(digestOf: Text -> Text, t: Turn, meta: Metadata, p: Record)
    requires TurnOk(t) && Triggers(t) && DigestOk(digestOf) && MetadataOk(meta)
    requires Projects(TurnEvents(digestOf, t, 1)[1], COMPACTION_END, meta, p)
    ensures EndsAs(digestOf, Take(Outcomes(Started, None, false, None), p), t)
  {
    EndIsTaken(digestOf, t, meta, p);
    hide *;
    FailureIs(t);
    TakenEnds(digestOf, t, p, TurnFailure(t));
  }

  lemma FailureIs(t: Turn)
    ensures TurnFailure(t).None? <==> Completes(t)
    ensures forall code :: FailsWith(t, code) <==> TurnFailure(t) == Some(code)
  {
    TurnEndsExactly(t);
    hide Completes, FailsWith, TurnFailure;
  }

  lemma TakenEnds(digestOf: Text -> Text, t: Turn, p: Record, failure: Option<Code>)
    requires TakenAs(p, failure) && Reports(digestOf, t, Accept(true, p, Started).receipt.value)
    requires failure.None? <==> Completes(t)
    requires forall code :: FailsWith(t, code) ==> failure == Some(code)
    ensures EndsAs(digestOf, Take(Outcomes(Started, None, false, None), p), t)
  {
    hide Completes, FailsWith, Reports, Accept, SafeReceipt, Is;
  }

  /** The whole chain: the hook runs over the turns, each event it emits is projected, and the runner's phase
    * machine takes what comes out. `metas` are the payload sizes and digests the projection measures. */
  method DeliverRun(digestOf: Text -> Text, turns: seq<Turn>, metas: seq<Metadata>) returns (o: Outcomes)
    requires DigestOk(digestOf) && |metas| == 2 && MetadataOk(metas[0]) && MetadataOk(metas[1])
    requires forall i :: 0 <= i < |turns| ==> TurnOk(turns[i])
    ensures (forall i :: 0 <= i < |turns| ==> !OverThreshold(turns[i])) ==> o == Outcomes(Idle, None, false, None)
    ensures forall i: nat :: FirstOver(turns, i) ==> EndsAs(digestOf, o, turns[i])
  {
    OnePairAtMost(digestOf, turns);
    var events := RunHook(digestOf, turns);
    ghost var first := FirstTrigger(turns);
    if first.Some? {
      TriggersExactly(first.value);
      TurnEventTypes(digestOf, first.value);
    }
    assert forall i: nat :: FirstOver(turns, i) ==> first == Some(turns[i]);
    o := Outcomes(Idle, None, false, None);
    hide RunTurns, FirstTrigger, TurnEvents, TypeOf, Accept, SafeReceipt, Projects, DigestOk, MetadataOk, TurnOk,
      Triggers, TurnFailure, EndsAs, OverThreshold;
    for i := 0 to |events|
      invariant i == 0 ==> o == Outcomes(Idle, None, false, None)
      invariant i == 1 ==> o == Outcomes(Started, None, false, None)
      invariant i == 2 ==> EndsAs(digestOf, o, first.value)
    {
      var p := ProjectCompaction(events[i], TypeOf(events[i]), metas[i]);
      if i == 0 {
        StartTaken(digestOf, first.value, metas[0], p);
      } else {
        EndTaken(digestOf, first.value, metas[1], p);
      }
      o := Take(o, p);
    }
  }
}
