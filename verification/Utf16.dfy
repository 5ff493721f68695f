// UTF-16 text and its UTF-8 byte length, and the binary searches that cut a
// text to a byte limit without splitting a code point.
module Utf16 {
  /** A UTF-16 code unit; a JavaScript string is a sequence of them. */
  type CodeUnit = u: nat | u < 0x1_0000
  type Text = seq<CodeUnit>

  predicate IsHigh(u: CodeUnit) { 0xD800 <= u <= 0xDBFF }
  predicate IsLow(u: CodeUnit) { 0xDC00 <= u <= 0xDFFF }

  /** White space and line terminators as `trim` removes them. */
  predicate IsSpace(u: CodeUnit) {
    0x09 <= u <= 0x0D || u == 0x20 || u == 0xA0 || u == 0x1680 || 0x2000 <= u <= 0x200A
    || u == 0x2028 || u == 0x2029 || u == 0x202F || u == 0x205F || u == 0x3000 || u == 0xFEFF
  }

  /** Bytes of one unit that is not part of a surrogate pair; a lone surrogate
      is encoded as the three bytes of U+FFFD. */
  function UnitBytes(u: CodeUnit): nat {
    if u < 0x80 then 1 else if u < 0x800 then 2 else 3
  }

  predicate PairAt(s: Text, i: int) {
    0 <= i && i + 1 < |s| && IsHigh(s[i]) && IsLow(s[i + 1])
  }

  /** `Buffer.byteLength(s, "utf8")`. */
  function ByteLength(s: Text): nat {
    if |s| == 0 then 0
    else if PairAt(s, 0) then 4 + ByteLength(s[2..])
    else UnitBytes(s[0]) + ByteLength(s[1..])
  }

  /** A cut position that does not split a surrogate pair. */
  predicate Aligned(s: Text, m: int) {
    0 <= m <= |s| && !PairAt(s, m - 1)
  }

  /** Every surrogate belongs to a pair. */
  ghost predicate WellFormed(s: Text) {
    && (forall i :: 0 <= i < |s| && IsHigh(s[i]) ==> PairAt(s, i))
    && (forall i :: 0 <= i < |s| && IsLow(s[i]) ==> PairAt(s, i - 1))
  }

  predicate Joins(a: Text, b: Text) {
    |a| > 0 && |b| > 0 && IsHigh(a[|a| - 1]) && IsLow(b[0])
  }

  lemma Regroup(a: Text, b: Text, c: Text)
    ensures (a + b) + c == a + (b + c)
  {
  }

  // ----- byte length of concatenations, prefixes and suffixes -----

  lemma {:induction false} ByteLengthConcat(a: Text, b: Text)
    ensures ByteLength(a + b) == ByteLength(a) + ByteLength(b) - (if Joins(a, b) then 2 else 0)
    decreases |a|
  {
    if |a| == 0 {
      assert a + b == b;
    } else if PairAt(a, 0) {
      assert (a + b)[2..] == a[2..] + b;
      ByteLengthConcat(a[2..], b);
    } else {
      assert (a + b)[1..] == a[1..] + b;
      ByteLengthConcat(a[1..], b);
      if |a| == 1 && Joins(a, b) {
        assert (a + b)[2..] == b[1..];
        assert a[1..] + b == b;
      }
    }
  }

  lemma {:induction false} UnitsAtMostBytes(s: Text)
    ensures |s| <= ByteLength(s)
  {
    if |s| == 0 {
    } else if PairAt(s, 0) {
      UnitsAtMostBytes(s[2..]);
    } else {
      UnitsAtMostBytes(s[1..]);
    }
  }

  lemma {:induction false} AsciiByteLength(s: Text)
    requires forall i :: 0 <= i < |s| ==> s[i] < 0x80
    ensures ByteLength(s) == |s|
  {
    if |s| > 0 { AsciiByteLength(s[1..]); }
  }

  /** Longer prefixes never take fewer bytes, even when a cut splits a pair. */
  lemma PrefixMonotone(s: Text, m: nat, n: nat)
    requires m <= n <= |s|
    ensures ByteLength(s[..m]) <= ByteLength(s[..n])
  {
    assert s[..n] == s[..m] + s[m..n];
    ByteLengthConcat(s[..m], s[m..n]);
    if Joins(s[..m], s[m..n]) { assert ByteLength(s[m..n]) >= 3; }
  }

  lemma SuffixMonotone(s: Text, m: nat, n: nat)
    requires m <= n <= |s|
    ensures ByteLength(s[n..]) <= ByteLength(s[m..])
  {
    assert s[m..] == s[m..n] + s[n..];
    ByteLengthConcat(s[m..n], s[n..]);
    if Joins(s[m..n], s[n..]) {
      var k := n - 1;
      assert s[m..n] == s[m..k] + [s[k]];
      ByteLengthConcat(s[m..k], [s[k]]);
    }
  }

  /** The last unit of a prefix that splits a pair costs three bytes of the pair's four. */
  lemma SplitPrefix(s: Text, m: nat)
    requires PairAt(s, m - 1)
    ensures ByteLength(s[..m]) == ByteLength(s[..m - 1]) + 3
    ensures ByteLength(s[..m + 1]) == ByteLength(s[..m - 1]) + 4
  {
    assert s[..m] == s[..m - 1] + [s[m - 1]];
    ByteLengthConcat(s[..m - 1], [s[m - 1]]);
    assert s[..m + 1] == s[..m] + [s[m]];
    ByteLengthConcat(s[..m], [s[m]]);
  }

  /** A byte budget that both ends respect cannot make them overlap. */
  lemma EndsDoNotOverlap(s: Text, h: nat, t: nat)
    requires h <= |s| && t <= |s|
    requires ByteLength(s[..h]) + ByteLength(s[|s| - t..]) < ByteLength(s)
    ensures h + t <= |s|
  {
    if h + t > |s| {
      assert s == s[..h] + s[h..];
      ByteLengthConcat(s[..h], s[h..]);
      SuffixMonotone(s, |s| - t, h);
    }
  }

  // ----- what the searches promise -----

  /** `r` is a prefix, fits, and no longer aligned prefix fits. */
  ghost predicate LongestPrefix(s: Text, maxBytes: int, r: Text) {
    && r <= s
    && Aligned(s, |r|)
    && ByteLength(r) <= maxBytes
    && forall m {:trigger Aligned(s, m)} :: Aligned(s, m) && ByteLength(s[..m]) <= maxBytes ==> m <= |r|
  }

  ghost predicate IsSuffix(r: Text, s: Text) {
    |r| <= |s| && r == s[|s| - |r|..]
  }

  ghost predicate LongestSuffix(s: Text, maxBytes: int, r: Text) {
    && IsSuffix(r, s)
    && Aligned(s, |s| - |r|)
    && ByteLength(r) <= maxBytes
    && forall m {:trigger Aligned(s, m)} :: Aligned(s, m) && ByteLength(s[m..]) <= maxBytes ==> |s| - |r| <= m
  }

  /** The result of the searches is determined by what they promise. */
  lemma LongestPrefixUnique(s: Text, maxBytes: int, r1: Text, r2: Text)
    requires LongestPrefix(s, maxBytes, r1) && LongestPrefix(s, maxBytes, r2)
    ensures r1 == r2
  {
    assert r1 == s[..|r1|] && r2 == s[..|r2|];
  }

  /** Greatest cut whose prefix fits, found by bisection on the monotone byte length. */
  method FitPrefix(value: Text, maxBytes: int) returns (low: nat)
    ensures low <= |value|
    ensures low == 0 || ByteLength(value[..low]) <= maxBytes
    ensures forall m :: low < m <= |value| ==> ByteLength(value[..m]) > maxBytes
  {
    low := 0;
    var high: nat := |value|;
    while low < high
      invariant low <= high <= |value|
      invariant low == 0 || ByteLength(value[..low]) <= maxBytes
      invariant forall m :: high < m <= |value| ==> ByteLength(value[..m]) > maxBytes
    {
      var middle: nat := (low + high + 1) / 2;
      if ByteLength(value[..middle]) <= maxBytes {
        low := middle;
      } else {
        forall m | middle <= m <= |value| ensures ByteLength(value[..m]) > maxBytes {
          PrefixMonotone(value, middle, m);
        }
        high := middle - 1;
      }
    }
  }

  /** Least cut whose suffix fits. */
  method FitSuffix(value: Text, maxBytes: int) returns (low: nat)
    ensures low <= |value|
    ensures low == |value| || ByteLength(value[low..]) <= maxBytes
    ensures forall m :: 0 <= m < low ==> ByteLength(value[m..]) > maxBytes
  {
    low := 0;
    var high: nat := |value|;
    while low < high
      invariant low <= high <= |value|
      invariant high == |value| || ByteLength(value[high..]) <= maxBytes
      invariant forall m :: 0 <= m < low ==> ByteLength(value[m..]) > maxBytes
    {
      var middle: nat := (low + high) / 2;
      if ByteLength(value[middle..]) <= maxBytes {
        high := middle;
      } else {
        forall m | 0 <= m <= middle ensures ByteLength(value[m..]) > maxBytes {
          SuffixMonotone(value, m, middle);
        }
        low := middle + 1;
      }
    }
  }

  /** Dropping a trailing half of a pair from the greatest fitting prefix gives the longest aligned one. */
  lemma TrimmedPrefixIsLongest(value: Text, maxBytes: int, low: nat)
    requires WellFormed(value) && maxBytes >= 0 && low <= |value|
    requires low == 0 || ByteLength(value[..low]) <= maxBytes
    requires forall m :: low < m <= |value| ==> ByteLength(value[..m]) > maxBytes
    ensures LongestPrefix(value, maxBytes,
              if low > 0 && IsHigh(value[low - 1]) then value[..low - 1] else value[..low])
  {
    if low > 0 && IsHigh(value[low - 1]) {
      assert PairAt(value, low - 1);
      SplitPrefix(value, low);
      assert !PairAt(value, low - 2);
      assert !Aligned(value, low);
    } else {
      assert !PairAt(value, low - 1);
    }
  }

  lemma TrimmedSuffixIsLongest(value: Text, maxBytes: int, low: nat)
    requires WellFormed(value) && maxBytes >= 0 && low <= |value|
    requires low == |value| || ByteLength(value[low..]) <= maxBytes
    requires forall m :: 0 <= m < low ==> ByteLength(value[m..]) > maxBytes
    ensures LongestSuffix(value, maxBytes,
              if low < |value| && IsLow(value[low]) then value[low + 1..] else value[low..])
  {
    if low < |value| && IsLow(value[low]) {
      assert PairAt(value, low - 1);
      SuffixMonotone(value, low, low + 1);
      assert !Aligned(value, low);
      assert !PairAt(value, low);
    } else {
      assert !PairAt(value, low - 1);
      assert ByteLength(value[|value|..]) == 0;
    }
  }

  /** `utf8Prefix`, and `boundedUtf8` past its early return. */
  method Utf8Prefix(value: Text, maxBytes: int) returns (r: Text)
    ensures r <= value
    ensures maxBytes >= 0 ==> ByteLength(r) <= maxBytes
    ensures maxBytes < 0 ==> r == []
    ensures WellFormed(value) && maxBytes >= 0 ==> LongestPrefix(value, maxBytes, r)
  {
    var low := FitPrefix(value, maxBytes);
    if WellFormed(value) && maxBytes >= 0 { TrimmedPrefixIsLongest(value, maxBytes, low); }
    if low > 0 { PrefixMonotone(value, low - 1, low); }
    if low > 0 && IsHigh(value[low - 1]) {
      r := value[..low - 1];
    } else {
      r := value[..low];
    }
  }

  method Utf8Suffix(value: Text, maxBytes: int) returns (r: Text)
    ensures IsSuffix(r, value)
    ensures maxBytes >= 0 ==> ByteLength(r) <= maxBytes
    ensures maxBytes < 0 ==> r == []
    ensures WellFormed(value) && maxBytes >= 0 ==> LongestSuffix(value, maxBytes, r)
  {
    var low := FitSuffix(value, maxBytes);
    if WellFormed(value) && maxBytes >= 0 { TrimmedSuffixIsLongest(value, maxBytes, low); }
    if low < |value| { SuffixMonotone(value, low, low + 1); }
    if low < |value| && IsLow(value[low]) {
      r := value[low + 1..];
    } else {
      r := value[low..];
    }
  }

  // ----- lines -----

  const NEWLINE: Text := [10]

  /** `texts.join("\n")` */
  function Join(texts: seq<Text>): Text {
    if texts == [] then [] else if |texts| == 1 then texts[0] else texts[0] + NEWLINE + Join(texts[1..])
  }

  /** A text split at its line feeds. */
  function Lines(t: Text): (r: seq<Text>)
    ensures |r| > 0
  {
    if t == [] then [[]]
    else
      var rest := Lines(t[1..]);
      if t[0] == 10 then [[]] + rest else [[t[0]] + rest[0]] + rest[1..]
  }

  lemma {:induction false} LinesOfOne(t: Text)
    requires 10 !in t
    ensures Lines(t) == [t]
  {
    if t != [] {
      LinesOfOne(t[1..]);
      assert [t[0]] + t[1..] == t;
    }
  }

  lemma {:induction false} LinesOfMore(t: Text, u: Text)
    requires 10 !in t
    ensures Lines(t + NEWLINE + u) == [t] + Lines(u)
  {
    var whole := t + NEWLINE + u;
    if t == [] {
      assert whole[0] == 10 && whole[1..] == u;
    } else {
      assert whole[0] == t[0] && whole[1..] == t[1..] + NEWLINE + u;
      LinesOfMore(t[1..], u);
      var rest := Lines(whole[1..]);
      assert rest[0] == t[1..] && rest[1..] == Lines(u) && [t[0]] + t[1..] == t;
    }
  }

  /** Texts without line feeds can be read back from what they were joined to. */
  lemma {:induction false} JoinReadsBack(texts: seq<Text>)
    requires texts != [] && forall i :: 0 <= i < |texts| ==> 10 !in texts[i]
    ensures Lines(Join(texts)) == texts
  {
    if |texts| == 1 {
      LinesOfOne(texts[0]);
    } else {
      JoinReadsBack(texts[1..]);
      LinesOfMore(texts[0], Join(texts[1..]));
      assert [texts[0]] + texts[1..] == texts;
    }
  }

  /** What joining is, whatever the texts hold: each stands whole, with one line feed between. */
  lemma {:induction false} JoinIs(front: seq<Text>, back: seq<Text>)
    ensures Join([]) == [] && forall r :: Join([r]) == r
    ensures front != [] && back != [] ==> Join(front + back) == Join(front) + [10] + Join(back)
  {
    if |front| == 1 && back != [] {
      assert (front + back)[1..] == back;
    } else if front != [] && back != [] {
      assert (front + back)[1..] == front[1..] + back;
      JoinIs(front[1..], back);
    }
  }

  // ----- UTF-8 -----

  /** The bytes of a code point (RFC 3629, section 3). */
  function Utf8(code: nat): seq<int>
    requires code < 0x11_0000
  {
    if code < 0x80 then [code]
    else if code < 0x800 then [0xC0 + code / 64, 0x80 + code % 64]
    else if code < 0x1_0000 then [0xE0 + code / 64 / 64, 0x80 + code / 64 % 64, 0x80 + code % 64]
    else [0xF0 + code / 64 / 64 / 64, 0x80 + code / 64 / 64 % 64, 0x80 + code / 64 % 64, 0x80 + code % 64]
  }

  /** How many bytes the first of them announces, by its leading ones. */
  function Announced(first: int): nat {
    if first < 0x80 then 1 else if first < 0xE0 then 2 else if first < 0xF0 then 3 else 4
  }

  /** The code point that bytes carry: the low bits of the first, then six of each other. */
  function CodeOf(bytes: seq<int>): int
    requires |bytes| > 0 && |bytes| == Announced(bytes[0])
  {
    if |bytes| == 1 then bytes[0]
    else if |bytes| == 2 then (bytes[0] - 0xC0) * 64 + (bytes[1] - 0x80)
    else if |bytes| == 3 then ((bytes[0] - 0xE0) * 64 + (bytes[1] - 0x80)) * 64 + (bytes[2] - 0x80)
    else (((bytes[0] - 0xF0) * 64 + (bytes[1] - 0x80)) * 64 + (bytes[2] - 0x80)) * 64 + (bytes[3] - 0x80)
  }

  /** Every code point is read back from its bytes, and it has none to spare: with fewer bytes it would not fit. */
  lemma Utf8ReadsBack(code: nat)
    requires code < 0x11_0000
    ensures var b := Utf8(code);
      && |b| > 0 && |b| == Announced(b[0]) && CodeOf(b) == code
      && (forall i :: 0 < i < |b| ==> 0x80 <= b[i] < 0xC0)
      && (|b| == 2 ==> code >= 0x80) && (|b| == 3 ==> code >= 0x800) && (|b| == 4 ==> code >= 0x1_0000)
  {
    var q := code / 64;
    var r := q / 64;
    var t := r / 64;
    assert code == q * 64 + code % 64 && q == r * 64 + q % 64 && r == t * 64 + r % 64;
  }

  function PairCode(high: CodeUnit, low: CodeUnit): nat
    requires IsHigh(high) && IsLow(low)
  {
    0x1_0000 + (high - 0xD800) * 0x400 + (low - 0xDC00)
  }

  /** The bytes of a text: of each surrogate pair's code point, of U+FFFD for a lone surrogate, of any other unit. */
  function Encoded(s: Text): seq<int> {
    if s == [] then []
    else if PairAt(s, 0) then Utf8(PairCode(s[0], s[1])) + Encoded(s[2..])
    else Utf8(if IsHigh(s[0]) || IsLow(s[0]) then 0xFFFD else s[0]) + Encoded(s[1..])
  }

  /** The byte length is the length of the encoding. */
  lemma {:induction false} ByteLengthIsEncoding(s: Text)
    ensures ByteLength(s) == |Encoded(s)|
    decreases |s|
  {
    if s != [] {
      if PairAt(s, 0) { ByteLengthIsEncoding(s[2..]); } else { ByteLengthIsEncoding(s[1..]); }
    }
  }

  /** What `trim` removes: tab to carriage return, the byte order mark, and the Unicode space separators. */
  lemma SpacesAre(u: CodeUnit)
    ensures IsSpace(u) <==> u in {
      0x09, 0x0A, 0x0B, 0x0C, 0x0D, 0xFEFF, 0x20, 0xA0, 0x1680, 0x2000, 0x2001, 0x2002, 0x2003, 0x2004, 0x2005, 0x2006,
      0x2007, 0x2008, 0x2009, 0x200A, 0x2028, 0x2029, 0x202F, 0x205F, 0x3000}
  {
  }
}
