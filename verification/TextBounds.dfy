// The byte bounds the Harness tools put on text: head and tail projections of
// tool output, and the Worker's replacement of an oversized tool result.
module TextBounds {
  import opened Utf16

  /** "\n...[truncated]...\n" */
  function Marker(): Text {
    [10, 46, 46, 46, 91, 116, 114, 117, 110, 99, 97, 116, 101, 100, 93, 46, 46, 46, 10]
  }

  const MAX_TOOL_RESULT_BYTES: nat := 24 * 1024

  datatype Bounded = Bounded(text: Text, truncated: bool)

  /** `boundedUtf8` */
  method BoundedUtf8(value: Text, maxBytes: nat) returns (r: Text)
    ensures r <= value && ByteLength(r) <= maxBytes
    ensures ByteLength(value) <= maxBytes ==> r == value
    ensures WellFormed(value) ==> LongestPrefix(value, maxBytes, r)
  {
    if ByteLength(value) <= maxBytes { return value; }
    r := Utf8Prefix(value, maxBytes);
  }

  lemma ConcatAtMost(a: Text, b: Text)
    ensures ByteLength(a + b) <= ByteLength(a) + ByteLength(b)
  {
    ByteLengthConcat(a, b);
  }

  lemma Sandwich(head: Text, middle: Text, tail: Text)
    ensures ByteLength(head + middle + tail) <= ByteLength(head) + ByteLength(middle) + ByteLength(tail)
  {
    ConcatAtMost(head + middle, tail);
    ConcatAtMost(head, middle);
  }

  lemma MarkerBytes()
    ensures |Marker()| == 19 && ByteLength(Marker()) == 19
  {
    AsciiByteLength(Marker());
  }

  /** `boundedHeadTail` keeps the text when it fits and otherwise replaces a middle stretch by the
      marker, so that the stated maximum is exceeded only when the marker alone exceeds it. */
  method BoundedHeadTail(value: Text, maxBytes: nat) returns (r: Bounded, ghost head: Text, ghost tail: Text)
    ensures r.truncated == (ByteLength(value) > maxBytes)
    ensures !r.truncated ==> r.text == value
    ensures r.truncated ==>
              && r.text == head + Marker() + tail
              && head <= value && IsSuffix(tail, value)
              && |head| + |tail| <= |value|
    ensures ByteLength(r.text) <= maxBytes || (r.truncated && maxBytes < 19 && r.text == Marker())
    ensures r.truncated && WellFormed(value) && maxBytes >= 19 ==>
              && LongestPrefix(value, (maxBytes - 19 + 1) / 2, head)
              && LongestSuffix(value, (maxBytes - 19) / 2, tail)
  {
    hide ByteLength, WellFormed, LongestPrefix, LongestSuffix;
    head, tail := [], [];
    if ByteLength(value) <= maxBytes { return Bounded(value, false), head, tail; }
    MarkerBytes();
    var remaining := maxBytes - |Marker()|;
    var headBytes := (remaining + 1) / 2;
    var tailBytes := remaining / 2;
    var h := Utf8Prefix(value, headBytes);
    var t := Utf8Suffix(value, tailBytes);
    Sandwich(h, Marker(), t);
    if remaining >= 0 {
      assert value[..|h|] == h && value[|value| - |t|..] == t;
      EndsDoNotOverlap(value, |h|, |t|);
    } else {
      assert t == [] && (h == [] || headBytes == 0);
      if headBytes == 0 { EmptyWhenNoBytes(h); }
      assert h + Marker() + t == Marker();
    }
    return Bounded(h + Marker() + t, true), h, t;
  }

  lemma EmptyWhenNoBytes(s: Text)
    requires ByteLength(s) == 0
    ensures s == []
  {
  }

  // ----- the Worker's bound on tool results -----

  function Kept(value: Text, n: nat, fromEnd: bool): (r: Text)
    requires n <= |value|
  {
    if fromEnd then value[|value| - n..] else value[..n]
  }

  ghost predicate LongestKept(value: Text, maxBytes: int, fromEnd: bool, r: Text) {
    if fromEnd then LongestSuffix(value, maxBytes, r) else LongestPrefix(value, maxBytes, r)
  }

  lemma KeptMonotone(value: Text, m: nat, n: nat, fromEnd: bool)
    requires m <= n <= |value|
    ensures ByteLength(Kept(value, m, fromEnd)) <= ByteLength(Kept(value, n, fromEnd))
  {
    if fromEnd { SuffixMonotone(value, |value| - n, |value| - m); } else { PrefixMonotone(value, m, n); }
  }

  /** `sliceUtf8` searches on the number of units kept, from either end. */
  method SliceUtf8(value: Text, maxBytes: int, fromEnd: bool) returns (r: Text)
    ensures if fromEnd then IsSuffix(r, value) else r <= value
    ensures ByteLength(value) <= maxBytes ==> r == value
    ensures maxBytes >= 0 ==> ByteLength(r) <= maxBytes
    ensures maxBytes < 0 ==> r == []
    ensures WellFormed(value) && maxBytes >= 0 ==> LongestKept(value, maxBytes, fromEnd, r)
  {
    assert ByteLength([]) == 0;
    hide ByteLength;
    if ByteLength(value) <= maxBytes { return value; }
    var low: nat := 0;
    var high: nat := |value|;
    while low < high
      invariant low <= high <= |value|
      invariant low == 0 || ByteLength(Kept(value, low, fromEnd)) <= maxBytes
      invariant forall m: nat :: high < m <= |value| ==> ByteLength(Kept(value, m, fromEnd)) > maxBytes
    {
      var middle: nat := (low + high + 1) / 2;
      var candidate := Kept(value, middle, fromEnd);
      if ByteLength(candidate) <= maxBytes {
        low := middle;
      } else {
        forall m: nat | middle <= m <= |value| ensures ByteLength(Kept(value, m, fromEnd)) > maxBytes {
          KeptMonotone(value, middle, m, fromEnd);
        }
        high := middle - 1;
      }
    }
    var slice := Kept(value, low, fromEnd);
    if low > 0 {
      KeptMonotone(value, low - 1, low, fromEnd);
      assert Kept(value, low - 1, fromEnd) == if fromEnd then slice[1..] else slice[..low - 1];
    }
    if WellFormed(value) && maxBytes >= 0 { KeptIsLongest(value, maxBytes, low, fromEnd); }
    if fromEnd {
      return if |slice| > 0 && IsLow(slice[0]) then slice[1..] else slice;
    }
    return if |slice| > 0 && IsHigh(slice[|slice| - 1]) then slice[..|slice| - 1] else slice;
  }

  lemma KeptIsLongest(value: Text, maxBytes: int, low: nat, fromEnd: bool)
    requires WellFormed(value) && maxBytes >= 0 && low <= |value|
    requires low == 0 || ByteLength(Kept(value, low, fromEnd)) <= maxBytes
    requires forall m: nat :: low < m <= |value| ==> ByteLength(Kept(value, m, fromEnd)) > maxBytes
    ensures var slice := Kept(value, low, fromEnd);
            LongestKept(value, maxBytes, fromEnd,
              if fromEnd then (if |slice| > 0 && IsLow(slice[0]) then slice[1..] else slice)
              else (if |slice| > 0 && IsHigh(slice[|slice| - 1]) then slice[..|slice| - 1] else slice))
  {
    hide WellFormed, ByteLength, LongestPrefix, LongestSuffix;
    if fromEnd {
      var cut := |value| - low;
      forall m: nat | m < cut ensures ByteLength(value[m..]) > maxBytes {
        assert value[m..] == Kept(value, |value| - m, true);
      }
      TrimmedSuffixIsLongest(value, maxBytes, cut);
      assert cut < |value| ==> value[cut..][1..] == value[cut + 1..];
    } else {
      forall m: nat | low < m <= |value| ensures ByteLength(value[..m]) > maxBytes {
        assert value[..m] == Kept(value, m, false);
      }
      TrimmedPrefixIsLongest(value, maxBytes, low);
      assert low > 0 ==> value[..low][..low - 1] == value[..low - 1];
    }
  }

  /** One content part of a tool result; the last form is a part that is not text. */
  datatype Part = TextPart(text: Text) | BadTextPart | OtherPart(id: nat)

  function Texts(content: seq<Part>): seq<Text> {
    if |content| == 0 then []
    else (if content[0].TextPart? then [content[0].text] else []) + Texts(content[1..])
  }

  function Others(content: seq<Part>): seq<Part> {
    if |content| == 0 then []
    else (if content[0].OtherPart? then [content[0]] else []) + Others(content[1..])
  }

  lemma {:induction false} TextsConcat(a: seq<Part>, b: seq<Part>)
    ensures Texts(a + b) == Texts(a) + Texts(b)
  {
    if |a| == 0 {
      assert a + b == b;
    } else {
      assert (a + b)[1..] == a[1..] + b && (a + b)[0] == a[0];
      TextsConcat(a[1..], b);
    }
  }

  lemma {:induction false} OthersConcat(a: seq<Part>, b: seq<Part>)
    ensures Others(a + b) == Others(a) + Others(b)
  {
    if |a| == 0 {
      assert a + b == b;
    } else {
      assert (a + b)[1..] == a[1..] + b && (a + b)[0] == a[0];
      OthersConcat(a[1..], b);
    }
  }

  /** Texts and other parts of two contents, one after the other. */
  lemma PartsConcat(a: seq<Part>, b: seq<Part>)
    ensures Texts(a + b) == Texts(a) + Texts(b) && Others(a + b) == Others(a) + Others(b)
  {
    TextsConcat(a, b);
    OthersConcat(a, b);
  }

  /** Where the first text part is, or the length when there is none. */
  function FirstText(content: seq<Part>): (k: nat)
    ensures k <= |content| && (k < |content| ==> !content[k].OtherPart?)
    ensures forall j :: 0 <= j < k ==> content[j].OtherPart?
  {
    if |content| == 0 || !content[0].OtherPart? then 0 else 1 + FirstText(content[1..])
  }

  lemma {:induction false} OthersOnly(content: seq<Part>)
    ensures Texts(Others(content)) == [] && Others(Others(content)) == Others(content)
    ensures (forall j :: 0 <= j < |content| ==> content[j].OtherPart?) ==> Others(content) == content
  {
    if |content| > 0 {
      OthersOnly(content[1..]);
      PartsConcat(if content[0].OtherPart? then [content[0]] else [], Others(content[1..]));
    }
  }

  function Replaced(content: seq<Part>, replacement: Text): seq<Part>
    requires FirstText(content) < |content|
  {
    content[..FirstText(content)] + [TextPart(replacement)] + Others(content[FirstText(content) + 1..])
  }

  lemma ThreeParts(a: seq<Part>, b: seq<Part>, c: seq<Part>)
    ensures Others(a + b + c) == Others(a) + Others(b) + Others(c) && Texts(a + b + c) == Texts(a) + Texts(b) + Texts(c)
  {
    hide Others, Texts;
    PartsConcat(a, b);
    PartsConcat(a + b, c);
  }

  lemma HasFirstText(content: seq<Part>)
    requires Texts(content) != []
    ensures FirstText(content) < |content|
  {
    if FirstText(content) == |content| { NoTexts(content); }
  }

  lemma OnePart(p: Part)
    ensures Others([p]) == if p.OtherPart? then [p] else []
    ensures Texts([p]) == if p.TextPart? then [p.text] else []
  {
  }

  lemma PartReplaced(front: seq<Part>, p: Part, back: seq<Part>, replacement: Text)
    requires Texts(front) == [] && !p.OtherPart?
    ensures Others(front + [TextPart(replacement)] + Others(back)) == Others(front + [p] + back)
    ensures Texts(front + [TextPart(replacement)] + Others(back)) == [replacement]
  {
    OthersOnly(back);
    OnePart(p);
    OnePart(TextPart(replacement));
    hide Others, Texts;
    ThreeParts(front, [p], back);
    ThreeParts(front, [TextPart(replacement)], Others(back));
  }

  lemma PartsAround(content: seq<Part>, k: nat)
    requires k < |content|
    ensures content[..k] + [content[k]] + content[k + 1..] == content
  {
  }

  lemma ReplacedParts(content: seq<Part>, replacement: Text)
    requires FirstText(content) < |content|
    ensures Others(Replaced(content, replacement)) == Others(content)
      && Texts(Replaced(content, replacement)) == [replacement]
  {
    hide Others, Texts, FirstText;
    var k := FirstText(content);
    var front, back := content[..k], content[k + 1..];
    NoTexts(front);
    PartsAround(content, k);
    PartReplaced(front, content[k], back, replacement);
  }

  /** The first text part becomes the replacement, the other text parts go, and everything else stays in place. */
  method ReplaceTexts(content: seq<Part>, replacement: Text) returns (r: seq<Part>)
    requires Texts(content) != []
    ensures FirstText(content) < |content| && r == Replaced(content, replacement)
    ensures Others(r) == Others(content) && Texts(r) == [replacement]
  {
    ghost var k := FirstText(content);
    HasFirstText(content);
    hide FirstText;
    var inserted := false;
    r := [];
    for i := 0 to |content|
      invariant inserted <==> k < i
      invariant r == if inserted then content[..k] + [TextPart(replacement)] + Others(content[k + 1..i])
        else content[..i]
    {
      assert content[..i + 1] == content[..i] + [content[i]];
      if k < i {
        assert content[k + 1..i + 1] == content[k + 1..i] + [content[i]];
        OthersConcat(content[k + 1..i], [content[i]]);
      }
      if content[i].OtherPart? {
        r := r + [content[i]];
      } else if !inserted {
        inserted := true;
        r := r + [TextPart(replacement)];
      }
    }
    assert content[k + 1..|content|] == content[k + 1..];
    ReplacedParts(content, replacement);
  }

  lemma JoinNothing(content: seq<Part>)
    requires Texts(content) == []
    ensures ByteLength(Join(Texts(content))) == 0
  {
  }

  /** `boundToolResultContent`: nothing is replaced exactly when the joined text fits; otherwise
      the result keeps every non-text part in order and one text within the limit, built from the
      longest fitting head and tail around the marker. */
  method BoundToolResultContent(content: seq<Part>, marker: Text) returns (bounded: bool, r: seq<Part>,
      ghost kept: Text)
    requires forall i :: 0 <= i < |marker| ==> marker[i] < 0x80
    requires |marker| + 2 <= MAX_TOOL_RESULT_BYTES
    ensures bounded == (ByteLength(Join(Texts(content))) > MAX_TOOL_RESULT_BYTES)
    ensures !bounded ==> r == content
    ensures bounded ==> Others(r) == Others(content) && Texts(r) == [kept]
    ensures bounded ==> FirstText(content) < |content| && r == Replaced(content, kept)
    ensures bounded ==> ByteLength(kept) <= MAX_TOOL_RESULT_BYTES
    ensures bounded && WellFormed(Join(Texts(content))) ==>
              exists head, tail ::
                && kept == head + NEWLINE + marker + NEWLINE + tail
                && LongestPrefix(Join(Texts(content)), (MAX_TOOL_RESULT_BYTES - |marker| - 2) / 2, head)
                && LongestSuffix(Join(Texts(content)), MAX_TOOL_RESULT_BYTES - |marker| - 2 - ByteLength(head), tail)
  {
    var text := Join(Texts(content));
    kept := [];
    if ByteLength(text) <= MAX_TOOL_RESULT_BYTES { return false, content, kept; }
    var separator := NEWLINE + marker + NEWLINE;
    AsciiByteLength(separator);
    var retained := MAX_TOOL_RESULT_BYTES - |separator|;
    var head := SliceUtf8(text, retained / 2, false);
    var tail := SliceUtf8(text, retained - ByteLength(head), true);
    var replacement := head + NEWLINE + marker + NEWLINE + tail;
    assert replacement == head + separator + tail;
    Sandwich(head, separator, tail);
    kept := replacement;
    hide ByteLength, WellFormed, LongestPrefix, LongestSuffix, Join;
    if Texts(content) == [] {
      JoinNothing(content);
      assert false;
    }
    r := ReplaceTexts(content, replacement);
    return true, r, kept;
  }

  lemma NoTexts(content: seq<Part>)
    requires forall j :: 0 <= j < |content| ==> content[j].OtherPart?
    ensures Texts(content) == []
  {
    if |content| > 0 { NoTexts(content[1..]); }
  }
}
