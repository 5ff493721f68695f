// JSON values, their JavaScript printed form (JSON.stringify), a parser for JSON texts
// (RFC 8259, sections 2 to 7) and the round trip between the two.
module Json {
  import opened Utf16

  datatype Json =
    | Null
    | Bool(b: bool)
    | Num(lexeme: Text)
    | Str(s: Text)
    | Arr(items: seq<Json>)
    | Obj(members: seq<Member>)

  datatype Member = Member(key: Text, value: Json)

  datatype Parsed<+T> = Fail | Done(value: T, rest: Text)

  const QUOTE: CodeUnit := 0x22
  const COMMA: CodeUnit := 0x2C
  const MINUS: CodeUnit := 0x2D
  const DOT: CodeUnit := 0x2E
  const COLON: CodeUnit := 0x3A
  const LBRACKET: CodeUnit := 0x5B
  const BACKSLASH: CodeUnit := 0x5C
  const RBRACKET: CodeUnit := 0x5D
  const LBRACE: CodeUnit := 0x7B
  const RBRACE: CodeUnit := 0x7D
  const TRUE: Text := [0x74, 0x72, 0x75, 0x65]
  const FALSE: Text := [0x66, 0x61, 0x6C, 0x73, 0x65]
  const NULL: Text := [0x6E, 0x75, 0x6C, 0x6C]

  // ----- numerals (RFC 8259, section 6) -----

  predicate IsDigit(u: CodeUnit) { 0x30 <= u <= 0x39 }

  predicate IsNumeralUnit(u: CodeUnit) {
    IsDigit(u) || u == MINUS || u == 0x2B || u == DOT || u == 0x45 || u == 0x65
  }

  function DigitRun(t: Text): (n: nat)
    ensures n <= |t|
  {
    if |t| > 0 && IsDigit(t[0]) then 1 + DigitRun(t[1..]) else 0
  }

  function IntLength(t: Text): (n: nat)
    ensures n <= |t|
  {
    if |t| > 0 && t[0] == 0x30 then 1 else DigitRun(t)
  }

  function FractionLength(t: Text): (n: nat)
    ensures n <= |t|
  {
    if |t| > 0 && t[0] == DOT && DigitRun(t[1..]) > 0 then 1 + DigitRun(t[1..]) else 0
  }

  function SignLength(t: Text): (n: nat)
    ensures n <= |t| && n <= 1
  {
    if |t| > 0 && (t[0] == MINUS || t[0] == 0x2B) then 1 else 0
  }

  function ExponentLength(t: Text): (n: nat)
    ensures n <= |t|
  {
    if |t| > 0 && (t[0] == 0x45 || t[0] == 0x65) then
      var s := SignLength(t[1..]);
      var d := DigitRun(t[1 + s..]);
      if d > 0 then 1 + s + d else 0
    else 0
  }

  function MinusLength(t: Text): (n: nat)
    ensures n <= |t|
  {
    if |t| > 0 && t[0] == MINUS then 1 else 0
  }

  /** The fraction and the exponent that may follow the digits. */
  function TailLength(t: Text): (n: nat)
    ensures n <= |t|
  {
    FractionLength(t) + ExponentLength(t[FractionLength(t)..])
  }

  /** Length of the longest numeral at the front of `t`; zero when there is none. */
  function NumeralLength(t: Text): (n: nat)
    ensures n <= |t|
  {
    var m := MinusLength(t);
    var i := IntLength(t[m..]);
    if i == 0 then 0 else m + i + TailLength(t[m + i..])
  }

  predicate IsNumeral(t: Text) {
    |t| > 0 && NumeralLength(t) == |t|
  }

  /** `rest` cannot extend a numeral before it. */
  predicate Stops(rest: Text) {
    |rest| == 0 || !IsNumeralUnit(rest[0])
  }

  lemma {:induction false} DigitRunStops(t: Text, rest: Text)
    requires Stops(rest)
    ensures DigitRun(t + rest) == DigitRun(t)
  {
    if |t| == 0 {
      assert t + rest == rest;
    } else {
      assert (t + rest)[1..] == t[1..] + rest;
      DigitRunStops(t[1..], rest);
    }
  }

  lemma FractionStops(t: Text, rest: Text)
    requires Stops(rest)
    ensures FractionLength(t + rest) == FractionLength(t)
  {
    if |t| == 0 {
      assert t + rest == rest;
    } else {
      assert (t + rest)[1..] == t[1..] + rest;
      DigitRunStops(t[1..], rest);
    }
  }

  lemma ExponentStops(t: Text, rest: Text)
    requires Stops(rest)
    ensures ExponentLength(t + rest) == ExponentLength(t)
  {
    if |t| == 0 {
      assert t + rest == rest;
    } else {
      var s := SignLength(t[1..]);
      assert (t + rest)[1..] == t[1..] + rest;
      assert SignLength(t[1..] + rest) == s;
      assert (t + rest)[1 + s..] == t[1 + s..] + rest;
      DigitRunStops(t[1 + s..], rest);
    }
  }

  lemma IntStops(t: Text, rest: Text)
    requires Stops(rest)
    ensures IntLength(t + rest) == IntLength(t)
  {
    DigitRunStops(t, rest);
    if |t| == 0 { assert t + rest == rest; }
  }

  lemma TailStops(t: Text, rest: Text)
    requires Stops(rest)
    ensures TailLength(t + rest) == TailLength(t)
  {
    FractionStops(t, rest);
    var f := FractionLength(t);
    hide FractionLength, ExponentLength;
    assert (t + rest)[f..] == t[f..] + rest;
    ExponentStops(t[f..], rest);
  }

  lemma NumeralStops(t: Text, rest: Text)
    requires Stops(rest)
    ensures NumeralLength(t + rest) == NumeralLength(t)
  {
    var m := MinusLength(t);
    assert MinusLength(t + rest) == m;
    IntStops(t[m..], rest);
    var i := IntLength(t[m..]);
    hide MinusLength, IntLength, TailLength, Stops;
    assert (t + rest)[m..] == t[m..] + rest;
    assert (t + rest)[m + i..] == t[m + i..] + rest;
    TailStops(t[m + i..], rest);
  }

  lemma {:induction false} DigitsAreNumeral(t: Text)
    ensures forall i :: 0 <= i < DigitRun(t) ==> IsDigit(t[i])
  {
    if |t| > 0 && IsDigit(t[0]) {
      DigitsAreNumeral(t[1..]);
      forall i | 0 < i < DigitRun(t) ensures IsDigit(t[i]) { assert t[i] == t[1..][i - 1]; }
    }
  }

  lemma PartsAreNumeral(t: Text)
    ensures forall i :: 0 <= i < IntLength(t) ==> IsNumeralUnit(t[i])
    ensures forall i :: 0 <= i < FractionLength(t) ==> IsNumeralUnit(t[i])
    ensures forall i :: 0 <= i < ExponentLength(t) ==> IsNumeralUnit(t[i])
  {
    DigitsAreNumeral(t);
    if |t| > 0 {
      DigitsAreNumeral(t[1..]);
      forall i | 0 < i < FractionLength(t) ensures IsNumeralUnit(t[i]) { assert t[i] == t[1..][i - 1]; }
      var s := SignLength(t[1..]);
      DigitsAreNumeral(t[1 + s..]);
      forall i | 0 < i < ExponentLength(t) ensures IsNumeralUnit(t[i]) {
        if i > s { assert t[i] == t[1 + s..][i - 1 - s]; } else { assert t[i] == t[1..][0]; }
      }
    }
  }

  lemma TailUnits(t: Text)
    ensures forall i :: 0 <= i < TailLength(t) ==> IsNumeralUnit(t[i])
  {
    var f := FractionLength(t);
    PartsAreNumeral(t);
    PartsAreNumeral(t[f..]);
    hide FractionLength, ExponentLength, IsNumeralUnit;
    forall i | f <= i < TailLength(t) ensures IsNumeralUnit(t[i]) { assert t[i] == t[f..][i - f]; }
  }

  lemma MinusUnits(t: Text)
    ensures MinusLength(t) <= |t| && forall i :: 0 <= i < MinusLength(t) ==> IsNumeralUnit(t[i])
  {
  }

  /** Every unit of a numeral is one a numeral may hold. */
  lemma NumeralUnits(t: Text)
    requires IsNumeral(t)
    ensures forall i :: 0 <= i < |t| ==> IsNumeralUnit(t[i])
  {
    var m, n := MinusLength(t), IntLength(t[MinusLength(t)..]);
    assert |t| == m + n + TailLength(t[m + n..]);
    hide *;
    MinusUnits(t);
    PartsAreNumeral(t[m..]);
    TailUnits(t[m + n..]);
    forall i | 0 <= i < |t| ensures IsNumeralUnit(t[i]) {
      if m <= i < m + n {
        assert t[i] == t[m..][i - m];
      } else if m + n <= i {
        assert t[i] == t[m + n..][i - m - n];
      }
    }
  }

  // ----- strings (RFC 8259, section 7) -----

  function HexUnit(n: nat): CodeUnit
    requires n < 16
  {
    if n < 10 then 0x30 + n else 0x61 + n - 10
  }

  predicate IsHex(u: CodeUnit) {
    IsDigit(u) || 0x61 <= u <= 0x66 || 0x41 <= u <= 0x46
  }

  function HexValue(u: CodeUnit): (n: nat)
    requires IsHex(u)
    ensures n < 16
  {
    if IsDigit(u) then u - 0x30 else if u >= 0x61 then u - 0x61 + 10 else u - 0x41 + 10
  }

  function Hex4(u: CodeUnit): Text {
    [HexUnit(u / 16 / 16 / 16), HexUnit(u / 16 / 16 % 16), HexUnit(u / 16 % 16), HexUnit(u % 16)]
  }

  /** JSON.stringify's form of one unit outside a surrogate pair. */
  function EscapeUnit(u: CodeUnit): Text {
    if u == QUOTE || u == BACKSLASH then [BACKSLASH, u]
    else if u == 0x08 then [BACKSLASH, 0x62]
    else if u == 0x0C then [BACKSLASH, 0x66]
    else if u == 0x0A then [BACKSLASH, 0x6E]
    else if u == 0x0D then [BACKSLASH, 0x72]
    else if u == 0x09 then [BACKSLASH, 0x74]
    else if u < 0x20 || IsHigh(u) || IsLow(u) then [BACKSLASH, 0x75] + Hex4(u)
    else [u]
  }

  function Escaped(s: Text): Text {
    if |s| == 0 then []
    else if PairAt(s, 0) then [s[0], s[1]] + Escaped(s[2..])
    else EscapeUnit(s[0]) + Escaped(s[1..])
  }

  function Quote(s: Text): Text {
    [QUOTE] + Escaped(s) + [QUOTE]
  }

  function Prepend(u: CodeUnit, r: Parsed<Text>): Parsed<Text> {
    match r
    case Fail => Fail
    case Done(s, rest) => Done([u] + s, rest)
  }

  /** The part of a string after its opening quote. */
  function ParseStringBody(t: Text): (r: Parsed<Text>)
    ensures r.Done? ==> |r.rest| < |t|
  {
    if |t| == 0 then Fail
    else if t[0] == QUOTE then Done([], t[1..])
    else if t[0] == BACKSLASH then
      if |t| < 2 then Fail
      else if t[1] == 0x75 then
        if |t| < 6 || !IsHex(t[2]) || !IsHex(t[3]) || !IsHex(t[4]) || !IsHex(t[5]) then Fail
        else
          Prepend(HexValue(t[2]) * 4096 + HexValue(t[3]) * 256 + HexValue(t[4]) * 16 + HexValue(t[5]),
                  ParseStringBody(t[6..]))
      else if t[1] == QUOTE || t[1] == BACKSLASH || t[1] == 0x2F then Prepend(t[1], ParseStringBody(t[2..]))
      else if t[1] == 0x62 then Prepend(0x08, ParseStringBody(t[2..]))
      else if t[1] == 0x66 then Prepend(0x0C, ParseStringBody(t[2..]))
      else if t[1] == 0x6E then Prepend(0x0A, ParseStringBody(t[2..]))
      else if t[1] == 0x72 then Prepend(0x0D, ParseStringBody(t[2..]))
      else if t[1] == 0x74 then Prepend(0x09, ParseStringBody(t[2..]))
      else Fail
    else if t[0] < 0x20 then Fail
    else Prepend(t[0], ParseStringBody(t[1..]))
  }

  lemma HexUnitRoundTrip(n: nat)
    requires n < 16
    ensures IsHex(HexUnit(n)) && HexValue(HexUnit(n)) == n
  {
  }

  lemma HexRoundTrip(u: CodeUnit)
    ensures var h := Hex4(u);
            && IsHex(h[0]) && IsHex(h[1]) && IsHex(h[2]) && IsHex(h[3])
            && HexValue(h[0]) * 4096 + HexValue(h[1]) * 256 + HexValue(h[2]) * 16 + HexValue(h[3]) == u
  {
    var q1 := u / 16;
    var q2 := q1 / 16;
    var q3 := q2 / 16;
    HexUnitRoundTrip(u % 16);
    HexUnitRoundTrip(q1 % 16);
    HexUnitRoundTrip(q2 % 16);
    HexUnitRoundTrip(q3);
  }

  lemma UnescapeUnit(u: CodeUnit, tail: Text)
    ensures ParseStringBody(EscapeUnit(u) + tail) == Prepend(u, ParseStringBody(tail))
  {
    var t := EscapeUnit(u) + tail;
    if |EscapeUnit(u)| == 6 {
      HexRoundTrip(u);
      assert t[2] == Hex4(u)[0] && t[3] == Hex4(u)[1] && t[4] == Hex4(u)[2] && t[5] == Hex4(u)[3];
      assert t[6..] == tail;
    } else if |EscapeUnit(u)| == 2 {
      assert t[2..] == tail;
    } else {
      assert t[1..] == tail;
    }
  }

  lemma LiteralUnit(u: CodeUnit, tail: Text)
    requires u != QUOTE && u != BACKSLASH && u >= 0x20
    ensures ParseStringBody([u] + tail) == Prepend(u, ParseStringBody(tail))
  {
    assert ([u] + tail)[1..] == tail;
  }

  lemma EscapedFront(s: Text, tail: Text)
    requires |s| > 0
    ensures Escaped(s) + tail ==
            if PairAt(s, 0) then [s[0]] + ([s[1]] + (Escaped(s[2..]) + tail))
            else EscapeUnit(s[0]) + (Escaped(s[1..]) + tail)
  {
    hide EscapeUnit;
    if PairAt(s, 0) {
      Regroup([s[0], s[1]], Escaped(s[2..]), tail);
      Regroup([s[0]], [s[1]], Escaped(s[2..]) + tail);
      assert [s[0], s[1]] == [s[0]] + [s[1]];
    } else {
      Regroup(EscapeUnit(s[0]), Escaped(s[1..]), tail);
    }
  }

  /** Decoding undoes escaping and stops at the closing quote. */
  lemma {:induction false} UnescapeEscaped(s: Text, tail: Text)
    requires |tail| > 0 && tail[0] == QUOTE
    ensures ParseStringBody(Escaped(s) + tail) == Done(s, tail[1..])
    decreases |s|
  {
    if |s| == 0 {
      assert Escaped(s) + tail == tail;
    } else {
      hide ParseStringBody, EscapeUnit;
      EscapedFront(s, tail);
      if PairAt(s, 0) {
        var after := Escaped(s[2..]) + tail;
        UnescapeEscaped(s[2..], tail);
        LiteralUnit(s[1], after);
        LiteralUnit(s[0], [s[1]] + after);
        assert s == [s[0]] + ([s[1]] + s[2..]);
      } else {
        UnescapeEscaped(s[1..], tail);
        UnescapeUnit(s[0], Escaped(s[1..]) + tail);
        assert s == [s[0]] + s[1..];
      }
    }
  }

  // ----- printing -----

  /** JSON.stringify on a JSON value, members in their order. */
  function Print(v: Json): Text
    decreases v
  {
    match v
    case Null => NULL
    case Bool(b) => if b then TRUE else FALSE
    case Num(lexeme) => lexeme
    case Str(s) => Quote(s)
    case Arr(items) => [LBRACKET] + PrintItems(items) + [RBRACKET]
    case Obj(members) => [LBRACE] + PrintMembers(members) + [RBRACE]
  }

  function PrintItems(items: seq<Json>): Text
    decreases items
  {
    if |items| == 0 then []
    else if |items| == 1 then Print(items[0])
    else Print(items[0]) + [COMMA] + PrintItems(items[1..])
  }

  function PrintMember(m: Member): Text
    decreases m
  {
    Quote(m.key) + [COLON] + Print(m.value)
  }

  function PrintMembers(members: seq<Member>): Text
    decreases members
  {
    if |members| == 0 then []
    else if |members| == 1 then PrintMember(members[0])
    else PrintMember(members[0]) + [COMMA] + PrintMembers(members[1..])
  }

  // ----- parsing -----

  predicate IsWhitespace(u: CodeUnit) { u == 0x20 || u == 0x09 || u == 0x0A || u == 0x0D }

  function SkipWhitespace(t: Text): (r: Text)
    ensures |r| <= |t|
  {
    if |t| > 0 && IsWhitespace(t[0]) then SkipWhitespace(t[1..]) else t
  }

  /** A member written again replaces the earlier value, as JSON.parse does. */
  function Put(members: seq<Member>, m: Member): seq<Member> {
    if |members| == 0 then [m]
    else if members[0].key == m.key then [m] + members[1..]
    else [members[0]] + Put(members[1..], m)
  }

  function ParseValue(text: Text): (r: Parsed<Json>)
    ensures r.Done? ==> |r.rest| < |text|
    decreases |text|, 0
  {
    var t := SkipWhitespace(text);
    if |t| == 0 then Fail
    else if t[0] == QUOTE then
      match ParseStringBody(t[1..]) {
        case Fail => Fail
        case Done(s, rest) => Done(Str(s), rest)
      }
    else if t[0] == LBRACKET then
      var u := SkipWhitespace(t[1..]);
      if |u| > 0 && u[0] == RBRACKET then Done(Arr([]), u[1..]) else ParseItems(t[1..], [])
    else if t[0] == LBRACE then
      var u := SkipWhitespace(t[1..]);
      if |u| > 0 && u[0] == RBRACE then Done(Obj([]), u[1..]) else ParseMembers(t[1..], [])
    else if TRUE <= t then Done(Bool(true), t[4..])
    else if FALSE <= t then Done(Bool(false), t[5..])
    else if NULL <= t then Done(Null, t[4..])
    else
      var n := NumeralLength(t);
      if n == 0 then Fail else Done(Num(t[..n]), t[n..])
  }

  function ParseItems(text: Text, acc: seq<Json>): (r: Parsed<Json>)
    ensures r.Done? ==> |r.rest| < |text|
    decreases |text|, 1
  {
    match ParseValue(text)
    case Fail => Fail
    case Done(v, after) =>
      var t := SkipWhitespace(after);
      if |t| == 0 then Fail
      else if t[0] == COMMA then ParseItems(t[1..], acc + [v])
      else if t[0] == RBRACKET then Done(Arr(acc + [v]), t[1..])
      else Fail
  }

  function ParseMembers(text: Text, acc: seq<Member>): (r: Parsed<Json>)
    ensures r.Done? ==> |r.rest| < |text|
    decreases |text|, 1
  {
    var t := SkipWhitespace(text);
    if |t| == 0 || t[0] != QUOTE then Fail
    else
      match ParseStringBody(t[1..])
      case Fail => Fail
      case Done(key, afterKey) =>
        var u := SkipWhitespace(afterKey);
        if |u| == 0 || u[0] != COLON then Fail
        else
          match ParseValue(u[1..])
          case Fail => Fail
          case Done(v, after) =>
            var w := SkipWhitespace(after);
            if |w| == 0 then Fail
            else if w[0] == COMMA then ParseMembers(w[1..], Put(acc, Member(key, v)))
            else if w[0] == RBRACE then Done(Obj(Put(acc, Member(key, v))), w[1..])
            else Fail
  }

  datatype Document = Invalid | Valid(value: Json)

  /** JSON.parse */
  function ParseDocument(text: Text): Document {
    match ParseValue(text)
    case Fail => Invalid
    case Done(v, rest) => if SkipWhitespace(rest) == [] then Valid(v) else Invalid
  }

  // ----- the round trip -----

  ghost predicate DistinctKeys(members: seq<Member>) {
    forall i, j :: 0 <= i < j < |members| ==> members[i].key != members[j].key
  }

  /** Numbers are numerals and no object has a key twice. */
  ghost predicate WellFormedValue(v: Json)
    decreases v
  {
    match v
    case Num(lexeme) => IsNumeral(lexeme)
    case Arr(items) => forall i :: 0 <= i < |items| ==> WellFormedValue(items[i])
    case Obj(members) =>
      && DistinctKeys(members)
      && forall i :: 0 <= i < |members| ==> WellFormedValue(members[i].value)
    case _ => true
  }

  lemma NumeralHead(t: Text)
    requires IsNumeral(t)
    ensures t[0] == MINUS || IsDigit(t[0])
  {
    assert IntLength(t[MinusLength(t)..]) > 0;
    if MinusLength(t) == 0 { assert t[0..] == t; }
  }

  /** A printed value starts with neither whitespace nor a closing bracket or brace. */
  lemma PrintHead(v: Json)
    requires WellFormedValue(v)
    ensures |Print(v)| > 0
    ensures var u := Print(v)[0]; !IsWhitespace(u) && u != RBRACKET && u != RBRACE
  {
    if v.Num? { NumeralHead(v.lexeme); }
  }

  lemma SkipNothing(t: Text)
    requires |t| == 0 || !IsWhitespace(t[0])
    ensures SkipWhitespace(t) == t
  {
  }

  lemma {:induction false} PutNew(acc: seq<Member>, m: Member)
    requires forall i :: 0 <= i < |acc| ==> acc[i].key != m.key
    ensures Put(acc, m) == acc + [m]
  {
    if |acc| > 0 {
      PutNew(acc[1..], m);
      assert acc + [m] == [acc[0]] + (acc[1..] + [m]);
    }
  }

  lemma ParseString(s: Text, rest: Text)
    ensures (Quote(s) + rest)[0] == QUOTE
    ensures ParseStringBody((Quote(s) + rest)[1..]) == Done(s, rest)
  {
    var tail := [QUOTE] + rest;
    assert (Quote(s) + rest)[1..] == Escaped(s) + tail;
    UnescapeEscaped(s, tail);
    assert tail[1..] == rest;
  }

  lemma ParseLiteral(v: Json, rest: Text)
    requires v.Null? || v.Bool?
    ensures ParseValue(Print(v) + rest) == Done(v, rest)
  {
    var t := Print(v) + rest;
    SkipNothing(t);
    assert Print(v) <= t && t[|Print(v)|..] == rest;
  }

  lemma NumeralBranch(t: Text)
    requires |t| > 0 && (t[0] == MINUS || IsDigit(t[0])) && NumeralLength(t) > 0
    ensures ParseValue(t) == Done(Num(t[..NumeralLength(t)]), t[NumeralLength(t)..])
  {
    hide NumeralLength, ParseStringBody;
    SkipNothing(t);
    assert TRUE[0] != t[0] && FALSE[0] != t[0] && NULL[0] != t[0];
  }

  lemma ParseNumeral(lexeme: Text, rest: Text)
    requires IsNumeral(lexeme) && Stops(rest)
    ensures ParseValue(lexeme + rest) == Done(Num(lexeme), rest)
  {
    var t := lexeme + rest;
    NumeralHead(lexeme);
    NumeralStops(lexeme, rest);
    hide ParseValue, NumeralLength;
    NumeralBranch(t);
    assert t[..|lexeme|] == lexeme && t[|lexeme|..] == rest;
  }

  /** Parsing undoes printing, whatever follows the printed value. */
  lemma {:induction false} ParsePrint(v: Json, rest: Text)
    requires WellFormedValue(v) && Stops(rest)
    ensures ParseValue(Print(v) + rest) == Done(v, rest)
    decreases v, 0
  {
    var t := Print(v) + rest;
    match v {
      case Num(lexeme) => ParseNumeral(lexeme, rest);
      case Str(s) => ParseString(s, rest); SkipNothing(t);
      case Arr(items) => ParsePrintArray(items, rest);
      case Obj(members) => ParsePrintObject(members, rest);
      case _ => ParseLiteral(v, rest);
    }
  }

  lemma {:induction false} ParsePrintArray(items: seq<Json>, rest: Text)
    requires forall i :: 0 <= i < |items| ==> WellFormedValue(items[i])
    ensures ParseValue([LBRACKET] + PrintItems(items) + [RBRACKET] + rest) == Done(Arr(items), rest)
    decreases items, 2
  {
    var t := [LBRACKET] + PrintItems(items) + [RBRACKET] + rest;
    var tail := PrintItems(items) + [RBRACKET] + rest;
    SkipNothing(t);
    assert t[1..] == tail;
    if |items| == 0 {
      assert tail == [RBRACKET] + rest && tail[1..] == rest;
    } else {
      PrintHead(items[0]);
      assert tail[0] == Print(items[0])[0];
      ParsePrintItems(items, [], rest);
      assert [] + items == items;
    }
    SkipNothing(tail);
  }

  lemma {:induction false} ParsePrintObject(members: seq<Member>, rest: Text)
    requires DistinctKeys(members)
    requires forall i :: 0 <= i < |members| ==> WellFormedValue(members[i].value)
    ensures ParseValue([LBRACE] + PrintMembers(members) + [RBRACE] + rest) == Done(Obj(members), rest)
    decreases members, 2
  {
    var t := [LBRACE] + PrintMembers(members) + [RBRACE] + rest;
    var tail := PrintMembers(members) + [RBRACE] + rest;
    SkipNothing(t);
    assert t[1..] == tail;
    if |members| == 0 {
      assert tail == [RBRACE] + rest && tail[1..] == rest;
    } else {
      assert PrintMember(members[0])[0] == QUOTE;
      assert tail[0] == PrintMembers(members)[0] == QUOTE;
      assert [] + members == members;
      ParsePrintMembers(members, [], rest);
    }
    SkipNothing(tail);
  }

  lemma {:induction false} ParsePrintItems(items: seq<Json>, acc: seq<Json>, rest: Text)
    requires |items| > 0 && forall i :: 0 <= i < |items| ==> WellFormedValue(items[i])
    ensures ParseItems(PrintItems(items) + [RBRACKET] + rest, acc) == Done(Arr(acc + items), rest)
    decreases items, 1
  {
    var text := PrintItems(items) + [RBRACKET] + rest;
    if |items| == 1 {
      var after := [RBRACKET] + rest;
      assert text == Print(items[0]) + after;
      ParsePrint(items[0], after);
      SkipNothing(after);
      assert after[1..] == rest;
      assert items == [items[0]];
    } else {
      var after := [COMMA] + (PrintItems(items[1..]) + [RBRACKET] + rest);
      assert text == Print(items[0]) + after;
      ParsePrint(items[0], after);
      SkipNothing(after);
      assert after[1..] == PrintItems(items[1..]) + [RBRACKET] + rest;
      ParsePrintItems(items[1..], acc + [items[0]], rest);
      assert acc + [items[0]] + items[1..] == acc + items;
    }
  }

  lemma MemberBranch(text: Text, key: Text, afterKey: Text, value: Json, after: Text, acc: seq<Member>)
    requires |text| > 0 && text[0] == QUOTE && ParseStringBody(text[1..]) == Done(key, afterKey)
    requires |afterKey| > 0 && afterKey[0] == COLON && ParseValue(afterKey[1..]) == Done(value, after)
    requires |after| > 0 && (after[0] == COMMA || after[0] == RBRACE)
    ensures ParseMembers(text, acc) ==
            if after[0] == COMMA then ParseMembers(after[1..], Put(acc, Member(key, value)))
            else Done(Obj(Put(acc, Member(key, value))), after[1..])
  {
    hide ParseStringBody, ParseValue, Put;
    SkipNothing(text);
    SkipNothing(afterKey);
    SkipNothing(after);
  }

  /** What one member's text contributes before the separator that follows it. */
  lemma ParseOneMember(m: Member, after: Text, acc: seq<Member>)
    requires ParseValue(Print(m.value) + after) == Done(m.value, after)
    requires |after| > 0 && (after[0] == COMMA || after[0] == RBRACE)
    ensures ParseMembers(PrintMember(m) + after, acc) ==
            if after[0] == COMMA then ParseMembers(after[1..], Put(acc, m)) else Done(Obj(Put(acc, m)), after[1..])
  {
    hide ParseStringBody, ParseValue, ParseMembers, Print, Quote, Put;
    var text := PrintMember(m) + after;
    var afterKey := [COLON] + (Print(m.value) + after);
    assert text == Quote(m.key) + afterKey;
    ParseString(m.key, afterKey);
    assert afterKey[1..] == Print(m.value) + after;
    MemberBranch(text, m.key, afterKey, m.value, after, acc);
  }

  lemma PrintMembersFront(members: seq<Member>, rest: Text)
    requires |members| > 0
    ensures PrintMembers(members) + [RBRACE] + rest ==
            PrintMember(members[0]) +
              (if |members| == 1 then [RBRACE] + rest else [COMMA] + (PrintMembers(members[1..]) + [RBRACE] + rest))
  {
    hide PrintMember;
    if |members| > 1 {
      var m, rests := PrintMember(members[0]), PrintMembers(members[1..]);
      Regroup(m, [COMMA], rests);
      Regroup(m, [COMMA] + rests, [RBRACE]);
      Regroup(m, ([COMMA] + rests) + [RBRACE], rest);
      Regroup([COMMA], rests, [RBRACE]);
      Regroup([COMMA], rests + [RBRACE], rest);
    } else {
      Regroup(PrintMember(members[0]), [RBRACE], rest);
    }
  }

  lemma {:induction false} ParsePrintMembers(members: seq<Member>, acc: seq<Member>, rest: Text)
    requires |members| > 0 && DistinctKeys(acc + members)
    requires forall i :: 0 <= i < |members| ==> WellFormedValue(members[i].value)
    ensures ParseMembers(PrintMembers(members) + [RBRACE] + rest, acc) == Done(Obj(acc + members), rest)
    decreases members, 1
  {
    hide ParseStringBody, ParseValue, ParseMembers, Print, PrintMember, PrintMembers, Put;
    var m := members[0];
    forall i | 0 <= i < |acc| ensures acc[i].key != m.key {
      assert (acc + members)[i] == acc[i] && (acc + members)[|acc|] == m;
    }
    PutNew(acc, m);
    PrintMembersFront(members, rest);
    if |members| == 1 {
      var after := [RBRACE] + rest;
      ParsePrint(m.value, after);
      ParseOneMember(m, after, acc);
      assert after[1..] == rest;
      assert members == [m];
    } else {
      var tail := PrintMembers(members[1..]) + [RBRACE] + rest;
      var after := [COMMA] + tail;
      ParsePrint(m.value, after);
      ParseOneMember(m, after, acc);
      assert after[1..] == tail;
      assert acc + [m] + members[1..] == acc + members;
      ParsePrintMembers(members[1..], acc + [m], rest);
    }
  }

  lemma DocumentRoundTrip(v: Json)
    requires WellFormedValue(v)
    ensures ParseDocument(Print(v)) == Valid(v)
  {
    ParsePrint(v, []);
    assert Print(v) + [] == Print(v);
  }
}
