module Jsonl {
  // The runner's incremental JSONL decoder (`StrictJsonlDecoder`) and its independence
  // from the way the child's output is cut into chunks.

  import opened Utf16
  import opened Json

  const MAX_RPC_LINE_BYTES: nat := 1024 * 1024
  const LF: CodeUnit := 0x0A
  const CR: CodeUnit := 0x0D

  datatype Failure = Oversize | InvalidJson | NotAnObject

  /** What a push hands to its listener, what it keeps, and whether it threw. */
  datatype Drained = Drained(records: seq<Json>, rest: Text, failures: seq<Failure>) {
    predicate Ok() { failures == [] }
  }

  /** Index of the first line feed, or the length when there is none. */
  function LineEnd(t: Text): (n: nat)
    ensures n <= |t|
    ensures forall i :: 0 <= i < n ==> t[i] != LF
    ensures n < |t| ==> t[n] == LF
  {
    if |t| == 0 || t[0] == LF then 0 else 1 + LineEnd(t[1..])
  }

  predicate HasLine(t: Text) { LineEnd(t) < |t| }

  function WithoutCr(line: Text): Text {
    if |line| > 0 && line[|line| - 1] == CR then line[..|line| - 1] else line
  }

  datatype Line = Blank | Bad(failure: Failure) | Record(value: Json)

  /** What one complete line, without its line feed, amounts to. */
  function ReadLine(raw: Text): Line {
    var line := WithoutCr(raw);
    if line == [] then Blank
    else if ByteLength(line) > MAX_RPC_LINE_BYTES then Bad(Oversize)
    else
      match ParseDocument(line)
      case Invalid => Bad(InvalidJson)
      case Valid(v) => if v.Obj? then Record(v) else Bad(NotAnObject)
  }

  function Drain(t: Text): Drained
    decreases |t|
  {
    if !HasLine(t) then Drained([], t, [])
    else
      var rest := t[LineEnd(t) + 1..];
      match ReadLine(t[..LineEnd(t)])
      case Blank => Drain(rest)
      case Bad(f) => Drained([], rest, [f])
      case Record(v) => var d := Drain(rest); d.(records := [v] + d.records)
  }

  lemma ReadLineIs(raw: Text, line: Text)
    requires line == WithoutCr(raw)
    ensures ReadLine(raw) ==
      if line == [] then Blank
      else if ByteLength(line) > MAX_RPC_LINE_BYTES then Bad(Oversize)
      else match ParseDocument(line)
           case Invalid => Bad(InvalidJson)
           case Valid(v) => if v.Obj? then Record(v) else Bad(NotAnObject)
  {
  }

  /** Draining a text with a line reads that line and drains what follows it. */
  lemma DrainLine(t: Text)
    requires HasLine(t)
    ensures var rest := t[LineEnd(t) + 1..];
      match ReadLine(t[..LineEnd(t)])
      case Blank => Drain(t) == Drain(rest)
      case Bad(f) => Drain(t) == Drained([], rest, [f])
      case Record(v) => Drain(t) == Drained([v] + Drain(rest).records, Drain(rest).rest, Drain(rest).failures)
  {
    hide ReadLine, LineEnd;
  }

  lemma DrainNothing(t: Text)
    requires !HasLine(t)
    ensures Drain(t) == Drained([], t, [])
  {
  }

  function Push(buffer: Text, chunk: Text): Drained {
    var b := buffer + chunk;
    if ByteLength(b) > MAX_RPC_LINE_BYTES && !HasLine(b) then Drained([], b, [Oversize]) else Drain(b)
  }

  /** `finish` accepts exactly a blank leftover. */
  predicate Finishes(buffer: Text) {
    forall i :: 0 <= i < |buffer| ==> IsSpace(buffer[i])
  }

  class StrictJsonlDecoder {
    var buffer: Text

    constructor ()
      ensures buffer == []
    {
      buffer := [];
    }

    /** The records are those handed to the listener; a push that throws has handed over the ones before. */
    method PushChunk(chunk: Text) returns (records: seq<Json>, failures: seq<Failure>)
      modifies this
      ensures Drained(records, buffer, failures) == Push(old(buffer), chunk)
    {
      hide ReadLine, LineEnd, Drain;
      records, failures := [], [];
      buffer := buffer + chunk;
      ghost var whole := buffer;
      if ByteLength(buffer) > MAX_RPC_LINE_BYTES && !HasLine(buffer) { return [], [Oversize]; }
      while true
        invariant failures == []
        invariant Drain(whole) ==
                  Drained(records + Drain(buffer).records, Drain(buffer).rest, Drain(buffer).failures)
        decreases |buffer|
      {
        assert records + [] == records;
        var index := LineEnd(buffer);
        if index == |buffer| {
          DrainNothing(buffer);
          return;
        }
        DrainLine(buffer);
        ghost var raw := buffer[..index];
        var line := buffer[..index];
        buffer := buffer[index + 1..];
        if |line| > 0 && line[|line| - 1] == CR { line := line[..|line| - 1]; }
        ReadLineIs(raw, line);
        if |line| == 0 { continue; }
        if ByteLength(line) > MAX_RPC_LINE_BYTES { return records, [Oversize]; }
        match ParseDocument(line) {
          case Invalid => return records, [InvalidJson];
          case Valid(v) =>
            if !v.Obj? { return records, [NotAnObject]; }
            assert records + ([v] + Drain(buffer).records) == (records + [v]) + Drain(buffer).records;
            records := records + [v];
        }
      }
    }

    method Finish() returns (ok: bool)
      ensures ok <==> forall i :: 0 <= i < |buffer| ==> IsSpace(buffer[i])
    {
      for i := 0 to |buffer|
        invariant forall j :: 0 <= j < i ==> IsSpace(buffer[j])
      {
        if !IsSpace(buffer[i]) { return false; }
      }
      return true;
    }
  }

  // ----- several chunks -----

  function Concat(chunks: seq<Text>): Text {
    if |chunks| == 0 then [] else chunks[0] + Concat(chunks[1..])
  }

  /** The chunks pushed in turn; nothing is pushed after a failure. */
  function Feed(buffer: Text, chunks: seq<Text>): Drained
    decreases |chunks|
  {
    if |chunks| == 0 then Drained([], buffer, [])
    else
      var first := Push(buffer, chunks[0]);
      if !first.Ok() then first
      else
        var more := Feed(first.rest, chunks[1..]);
        more.(records := first.records + more.records)
  }

  lemma LineEndIs(t: Text, n: nat)
    requires n <= |t| && (forall i :: 0 <= i < n ==> t[i] != LF) && (n < |t| ==> t[n] == LF)
    ensures LineEnd(t) == n
  {
  }

  lemma FirstLine(t: Text, more: Text)
    requires HasLine(t)
    ensures HasLine(t + more) && LineEnd(t + more) == LineEnd(t)
    ensures (t + more)[..LineEnd(t)] == t[..LineEnd(t)]
    ensures (t + more)[LineEnd(t) + 1..] == t[LineEnd(t) + 1..] + more
  {
    LineEndIs(t + more, LineEnd(t));
  }

  lemma {:induction false} RestHasNoLine(t: Text)
    requires Drain(t).Ok()
    ensures !HasLine(Drain(t).rest)
    decreases |t|
  {
    if HasLine(t) { RestHasNoLine(t[LineEnd(t) + 1..]); }
  }

  /** Draining a text and then more of it is draining the whole. */
  lemma {:induction false} DrainInTwo(t: Text, more: Text)
    requires Drain(t).Ok()
    ensures var second := Drain(Drain(t).rest + more);
            Drain(t + more) == second.(records := Drain(t).records + second.records)
    decreases |t|
  {
    if !HasLine(t) {
      var second := Drain(t + more);
      assert [] + second.records == second.records;
    } else {
      FirstLine(t, more);
      var rest := t[LineEnd(t) + 1..];
      DrainInTwo(rest, more);
      match ReadLine(t[..LineEnd(t)]) {
        case Record(v) =>
          var second := Drain(Drain(rest).rest + more);
          assert [v] + (Drain(rest).records + second.records) == ([v] + Drain(rest).records) + second.records;
        case _ =>
      }
    }
  }

  lemma ConcatFront(buffer: Text, chunks: seq<Text>)
    requires |chunks| > 0
    ensures buffer + Concat(chunks) == (buffer + chunks[0]) + Concat(chunks[1..])
  {
  }

  lemma {:induction false} FeedDrains(buffer: Text, chunks: seq<Text>)
    requires !HasLine(buffer) && Feed(buffer, chunks).Ok()
    ensures Drain(buffer + Concat(chunks)) == Feed(buffer, chunks)
    decreases |chunks|
  {
    if |chunks| == 0 {
      assert buffer + Concat(chunks) == buffer;
    } else {
      var b := buffer + chunks[0];
      RestHasNoLine(b);
      FeedDrains(Drain(b).rest, chunks[1..]);
      DrainInTwo(b, Concat(chunks[1..]));
      ConcatFront(buffer, chunks);
    }
  }

  lemma NoLineIn(t: Text, i: nat)
    requires i < |t| && t[i] == LF
    ensures HasLine(t)
  {
  }

  lemma {:induction false} FeedWithoutLine(buffer: Text, chunks: seq<Text>)
    requires |chunks| > 0 && Feed(buffer, chunks).Ok() && !HasLine(buffer + Concat(chunks))
    ensures ByteLength(buffer + Concat(chunks)) <= MAX_RPC_LINE_BYTES
    decreases |chunks|
  {
    var b := buffer + chunks[0];
    ConcatFront(buffer, chunks);
    var whole := b + Concat(chunks[1..]);
    if HasLine(b) { NoLineIn(whole, LineEnd(b)); }
    if |chunks| == 1 {
      assert whole == b;
    } else {
      FeedWithoutLine(b, chunks[1..]);
    }
  }

  /** When every chunk is accepted, one push of the whole output is too, with the same records and leftover. */
  lemma ChunksLikeOnePush(chunks: seq<Text>)
    requires Feed([], chunks).Ok()
    ensures Push([], Concat(chunks)) == Feed([], chunks)
  {
    FeedDrains([], chunks);
    assert [] + Concat(chunks) == Concat(chunks);
    if |chunks| > 0 && !HasLine(Concat(chunks)) { FeedWithoutLine([], chunks); }
  }

  // ----- when no chunking can make a difference -----

  /** Every line with its carriage return, and the unfinished tail, are within the limit. */
  predicate RawFits(t: Text)
    decreases |t|
  {
    if !HasLine(t) then ByteLength(t) <= MAX_RPC_LINE_BYTES
    else ByteLength(t[..LineEnd(t)]) <= MAX_RPC_LINE_BYTES && RawFits(t[LineEnd(t) + 1..])
  }

  lemma {:induction false} DrainPrefix(t: Text, more: Text)
    requires Drain(t + more).Ok()
    ensures Drain(t).Ok()
    decreases |t|
  {
    hide ReadLine, LineEnd, Drain;
    if HasLine(t) {
      FirstLine(t, more);
      DrainLine(t);
      DrainLine(t + more);
      DrainPrefix(t[LineEnd(t) + 1..], more);
    } else {
      DrainNothing(t);
    }
  }

  lemma {:induction false} RawFitsAfter(t: Text, more: Text)
    requires Drain(t).Ok() && RawFits(t + more)
    ensures RawFits(Drain(t).rest + more)
    decreases |t|
  {
    if HasLine(t) {
      FirstLine(t, more);
      RawFitsAfter(t[LineEnd(t) + 1..], more);
    }
  }

  lemma RawFitsPrefix(t: Text, more: Text)
    requires !HasLine(t) && RawFits(t + more)
    ensures ByteLength(t) <= MAX_RPC_LINE_BYTES
  {
    var whole := t + more;
    var end := LineEnd(whole);
    assert end >= |t|;
    PrefixMonotone(whole, |t|, end);
    assert whole[..|t|] == t && whole[..|whole|] == whole;
  }

  lemma {:induction false} FitsFeeds(buffer: Text, chunks: seq<Text>)
    requires !HasLine(buffer)
    requires Drain(buffer + Concat(chunks)).Ok() && RawFits(buffer + Concat(chunks))
    ensures Feed(buffer, chunks).Ok()
    decreases |chunks|
  {
    if |chunks| > 0 {
      var b := buffer + chunks[0];
      var more := Concat(chunks[1..]);
      ConcatFront(buffer, chunks);
      if !HasLine(b) { RawFitsPrefix(b, more); }
      DrainPrefix(b, more);
      RestHasNoLine(b);
      DrainInTwo(b, more);
      RawFitsAfter(b, more);
      FitsFeeds(Drain(b).rest, chunks[1..]);
    }
  }

  lemma RawFitsNothing(t: Text)
    requires !HasLine(t)
    ensures RawFits(t) <==> ByteLength(t) <= MAX_RPC_LINE_BYTES
  {
  }

  lemma RawFitsLine(t: Text)
    requires HasLine(t)
    ensures RawFits(t) <==> ByteLength(t[..LineEnd(t)]) <= MAX_RPC_LINE_BYTES && RawFits(t[LineEnd(t) + 1..])
  {
  }

  /** An oversize text without a line fails as a single chunk. */
  lemma OneChunk(t: Text)
    ensures Concat([t]) == t
    ensures !HasLine(t) && ByteLength(t) > MAX_RPC_LINE_BYTES ==> !Feed([], [t]).Ok()
  {
    assert [] + t == t && t + Concat([]) == t;
  }

  /** A raw line or tail over the limit has a chunking on which the decoder gives up. */
  lemma {:induction false} FailingChunks(t: Text) returns (chunks: seq<Text>)
    requires Drain(t).Ok() && !RawFits(t)
    ensures Concat(chunks) == t && !Feed([], chunks).Ok()
    decreases |t|
  {
    hide ReadLine, LineEnd, Drain, Feed, Concat, RawFits;
    if !HasLine(t) {
      RawFitsNothing(t);
      chunks := [t];
      OneChunk(t);
    } else {
      var end := LineEnd(t);
      DrainLine(t);
      RawFitsLine(t);
      if ByteLength(t[..end]) > MAX_RPC_LINE_BYTES {
        chunks := LongFirstLine(t);
      } else {
        var later := FailingChunks(t[end + 1..]);
        chunks := FirstLineAccepted(t, later);
      }
    }
  }

  lemma LongFirstLine(t: Text) returns (chunks: seq<Text>)
    requires HasLine(t) && ByteLength(t[..LineEnd(t)]) > MAX_RPC_LINE_BYTES
    ensures Concat(chunks) == t && !Feed([], chunks).Ok()
  {
    var end := LineEnd(t);
    var line, tail := t[..end], t[end..];
    LineEndIs(line, end);
    chunks := [line, tail];
    hide Drain, LineEnd;
    assert chunks[1..] == [tail];
    assert Concat([tail]) == tail + Concat([]) == tail;
    assert t == line + tail;
    assert [] + line == line;
  }

  lemma FirstLineAccepted(t: Text, later: seq<Text>) returns (chunks: seq<Text>)
    requires HasLine(t)
      && Drain(t).Ok()
      && Concat(later) == t[LineEnd(t) + 1..]
      && !Feed([], later).Ok()
    ensures Concat(chunks) == t && !Feed([], chunks).Ok()
  {
    var end := LineEnd(t);
    var front, rest := t[..end + 1], t[end + 1..];
    chunks := [front] + later;
    assert t == front + rest && chunks[1..] == later;
    LineEndIs(front, end);
    assert front[..end] == t[..end] && front[end + 1..] == [];
    assert [] + front == front;
    DrainPrefix(front, rest);
    assert Drain(front).rest == [];
    hide Drain, LineEnd;
    assert Push([], front) == Drain(front);
  }

  /** The exact condition under which every chunking of an output is accepted. */
  lemma EveryChunkingAccepted(t: Text)
    ensures (forall chunks :: Concat(chunks) == t ==> Feed([], chunks).Ok())
            <==> (Drain(t).Ok() && RawFits(t))
  {
    if Drain(t).Ok() && RawFits(t) {
      forall chunks | Concat(chunks) == t ensures Feed([], chunks).Ok() {
        assert [] + Concat(chunks) == t;
        FitsFeeds([], chunks);
      }
    } else {
      if !Drain(t).Ok() {
        var chunks := [t];
        assert Concat(chunks) == t + Concat([]) == t;
        assert [] + t == t;
        assert !Feed([], chunks).Ok();
      } else {
        var chunks := FailingChunks(t);
        assert Concat(chunks) == t && !Feed([], chunks).Ok();
      }
    }
  }

  /** One blank more than a line may hold. */
  function Blanks(): (t: Text)
    ensures |t| == MAX_RPC_LINE_BYTES + 1 && forall i :: 0 <= i < |t| ==> t[i] == 0x20
  {
    seq(MAX_RPC_LINE_BYTES + 1, i => 0x20)
  }

  lemma FeedOne(buffer: Text, chunk: Text)
    ensures Concat([chunk]) == chunk && Feed(buffer, [chunk]) == Push(buffer, chunk)
  {
    hide Push;
    assert chunk + Concat([chunk][1..]) == chunk;
    var p := Push(buffer, chunk);
    assert p.records + [] == p.records;
  }

  lemma LineFeedFirst(b: Text)
    requires !HasLine(b)
    ensures Push([], [LF] + b) == Drained([], b, [])
  {
    LineEndIs([LF] + b, 0);
    var none: Text := [];
    assert none + ([LF] + b) == [LF] + b && ([LF] + b)[..0] == none && ([LF] + b)[1..] == b;
    hide LineEnd, ParseDocument;
    DrainLine([LF] + b);
    DrainNothing(b);
  }

  lemma BlanksRefused()
    ensures !HasLine(Blanks()) && !HasLine([]) && Push([], Blanks()) == Drained([], Blanks(), [Oversize])
  {
    AsciiByteLength(Blanks());
    LineEndIs(Blanks(), |Blanks()|);
    LineEndIs([], 0);
    var none: Text := [];
    assert none + Blanks() == Blanks();
    hide Blanks, LineEnd;
  }

  /** The chunks can decide: a line feed and too many blanks are accepted, and finished, in one chunk, and
    * refused in two. */
  lemma ChunksCanDecide()
    ensures Concat([[LF] + Blanks()]) == [LF] + Blanks() == Concat([[LF], Blanks()])
    ensures Feed([], [[LF] + Blanks()]).Ok() && Finishes(Feed([], [[LF] + Blanks()]).rest)
    ensures !Feed([], [[LF], Blanks()]).Ok()
  {
    var b := Blanks();
    var none: Text := [];
    BlanksRefused();
    assert Finishes(b) by { hide Push, Drain; }
    hide Blanks, LineEnd, Push, Drain, Finishes, HasLine;
    LineFeedFirst(b);
    LineFeedFirst(none);
    assert [LF] + none == [LF] && [[LF], b][1..] == [b];
    FeedOne(none, [LF] + b);
    FeedOne(none, b);
  }

  // ----- printed records -----

  datatype Printed = Printed(members: seq<Member>, crlf: bool)

  function RawLine(p: Printed): Text {
    Print(Obj(p.members)) + (if p.crlf then [CR] else [])
  }

  function PrintLines(records: seq<Printed>): Text {
    if |records| == 0 then [] else RawLine(records[0]) + [LF] + PrintLines(records[1..])
  }

  function Values(records: seq<Printed>): seq<Json> {
    if |records| == 0 then [] else [Obj(records[0].members)] + Values(records[1..])
  }

  ghost predicate Visible(t: Text) {
    forall i :: 0 <= i < |t| ==> t[i] >= 0x20
  }

  lemma {:induction false} EscapedVisible(s: Text)
    ensures Visible(Escaped(s))
    decreases |s|
  {
    if |s| == 0 {
    } else if PairAt(s, 0) {
      EscapedVisible(s[2..]);
    } else {
      EscapedVisible(s[1..]);
      assert Visible(EscapeUnit(s[0]));
    }
  }

  lemma NumeralVisible(t: Text)
    requires IsNumeral(t)
    ensures Visible(t)
  {
    NumeralUnits(t);
    hide IsNumeral;
  }

  lemma {:induction false} PrintVisible(v: Json)
    requires WellFormedValue(v)
    ensures Visible(Print(v))
    decreases v
  {
    match v {
      case Num(lexeme) => NumeralVisible(lexeme);
      case Str(s) => EscapedVisible(s);
      case Arr(items) => ItemsVisible(items);
      case Obj(members) => MembersVisible(members);
      case _ =>
    }
  }

  lemma {:induction false} ItemsVisible(items: seq<Json>)
    requires forall i :: 0 <= i < |items| ==> WellFormedValue(items[i])
    ensures Visible(PrintItems(items))
    decreases items
  {
    if |items| > 0 {
      PrintVisible(items[0]);
      ItemsVisible(items[1..]);
    }
  }

  lemma {:induction false} MembersVisible(members: seq<Member>)
    requires forall i :: 0 <= i < |members| ==> WellFormedValue(members[i].value)
    ensures Visible(PrintMembers(members))
    decreases members
  {
    if |members| > 0 {
      EscapedVisible(members[0].key);
      PrintVisible(members[0].value);
      assert Visible(PrintMember(members[0]));
      MembersVisible(members[1..]);
    }
  }

  ghost predicate Sendable(records: seq<Printed>) {
    forall i :: 0 <= i < |records| ==>
      WellFormedValue(Obj(records[i].members)) && ByteLength(RawLine(records[i])) <= MAX_RPC_LINE_BYTES
  }

  lemma ReadPrinted(p: Printed)
    requires WellFormedValue(Obj(p.members)) && ByteLength(RawLine(p)) <= MAX_RPC_LINE_BYTES
    ensures ReadLine(RawLine(p)) == Record(Obj(p.members)) && !HasLine(RawLine(p))
  {
    var text := Print(Obj(p.members));
    var raw := RawLine(p);
    PrintVisible(Obj(p.members));
    PrintHead(Obj(p.members));
    DocumentRoundTrip(Obj(p.members));
    hide ParseDocument, Print, ByteLength;
    assert raw[..|text|] == text && raw[..|raw|] == raw;
    assert WithoutCr(raw) == text;
    PrefixMonotone(raw, |text|, |raw|);
    LineEndIs(raw, |raw|);
  }

  /** A raw line that reads as a record, put before lines that drain well. */
  lemma OnePrinted(raw: Text, rest: Text, v: Json, values: seq<Json>)
    requires ReadLine(raw) == Record(v) && ByteLength(raw) <= MAX_RPC_LINE_BYTES && forall i ::
      0 <= i < |raw| ==> raw[i] != LF
    requires Drain(rest) == Drained(values, [], []) && RawFits(rest)
    ensures Drain(raw + ([LF] + rest)) == Drained([v] + values, [], []) && RawFits(raw + ([LF] + rest))
  {
    hide Drain, RawFits, ReadLine, ByteLength;
    var t := raw + ([LF] + rest);
    assert t[..|raw|] == raw && t[|raw| + 1..] == rest;
    LineEndIs(t, |raw|);
    DrainLine(t);
    RawFitsLine(t);
  }

  lemma {:induction false} DrainPrinted(records: seq<Printed>)
    requires Sendable(records)
    ensures Drain(PrintLines(records)) == Drained(Values(records), [], [])
    ensures RawFits(PrintLines(records))
    decreases |records|
  {
    if |records| > 0 {
      ReadPrinted(records[0]);
      DrainPrinted(records[1..]);
      hide Drain, RawFits, ReadLine, RawLine;
      OnePrinted(RawLine(records[0]), PrintLines(records[1..]), Obj(records[0].members), Values(records[1..]));
      assert PrintLines(records) == RawLine(records[0]) + ([LF] + PrintLines(records[1..]));
    }
  }

  /** Printed records are recovered exactly and in order under every chunking, with nothing left over. */
  lemma PrintedRecordsRecovered(records: seq<Printed>, chunks: seq<Text>)
    requires Sendable(records) && Concat(chunks) == PrintLines(records)
    ensures Feed([], chunks) == Drained(Values(records), [], []) && Finishes(Feed([], chunks).rest)
  {
    DrainPrinted(records);
    EveryChunkingAccepted(PrintLines(records));
    assert [] + Concat(chunks) == Concat(chunks);
    FeedDrains([], chunks);
  }
}
