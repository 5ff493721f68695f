// The lexical rules of RFC 8259 as they are written there, and that the parser follows them exactly: numerals
// (section 6),
// the escapes of strings (section 7), white space (section 2), and that nothing but white space may follow a document.
module JsonLexis {
  import opened Utf16
  import opened Json

  // ----- numerals -----

  predicate Digits(d: Text) {
    |d| > 0 && forall i :: 0 <= i < |d| ==> '0' as int <= d[i] <= '9' as int
  }

  predicate IntPart(t: Text) {
    Digits(t) && (t[0] == '0' as int ==> |t| == 1)
  }

  predicate FractionPart(t: Text) {
    t == [] || (t[0] == '.' as int && Digits(t[1..]))
  }

  predicate ExponentPart(t: Text) {
    t == [] || ((t[0] == 'e' as int || t[0] == 'E' as int)
        && (Digits(t[1..]) || (|t| > 1 && (t[1] == '+' as int || t[1] == '-' as int) && Digits(t[2..]))))
  }

  /** `number = [ minus ] int [ frac ] [ exp ]` */
  ghost predicate Spelled(t: Text, minus: Text, i: Text, f: Text, e: Text) {
    t == minus + i + f + e && (minus == [] || minus == ['-' as int]) && IntPart(i) && FractionPart(f) && ExponentPart(e)
  }

  ghost predicate NumberGrammar(t: Text) {
    exists minus, i, f, e :: Spelled(t, minus, i, f, e)
  }

  lemma {:induction false} RunIs(t: Text)
    ensures DigitRun(t) > 0 ==> Digits(t[..DigitRun(t)])
    ensures DigitRun(t) < |t| ==> !IsDigit(t[DigitRun(t)])
  {
    if t != [] && IsDigit(t[0]) {
      RunIs(t[1..]);
      var n := DigitRun(t[1..]);
      assert t[..n + 1] == [t[0]] + t[1..][..n];
    }
  }

  lemma {:induction false} RunOfDigits(d: Text, rest: Text)
    requires Digits(d) && (rest == [] || !IsDigit(rest[0]))
    ensures DigitRun(d + rest) == |d|
  {
    assert (d + rest)[1..] == d[1..] + rest;
    if |d| > 1 { RunOfDigits(d[1..], rest); } else { assert d[1..] + rest == rest; }
  }

  lemma FractionIs(t: Text)
    ensures FractionPart(t[..FractionLength(t)])
  {
    if FractionLength(t) > 0 {
      RunIs(t[1..]);
      assert t[..FractionLength(t)][1..] == t[1..][..DigitRun(t[1..])];
    }
  }

  lemma ExponentIs(t: Text)
    ensures ExponentPart(t[..ExponentLength(t)])
  {
    var n := ExponentLength(t);
    if n > 0 {
      var s := SignLength(t[1..]);
      RunIs(t[1 + s..]);
      assert t[..n][1 + s..] == t[1 + s..][..DigitRun(t[1 + s..])];
    }
  }

  lemma FractionFound(f: Text, e: Text)
    requires FractionPart(f) && ExponentPart(e)
    ensures FractionLength(f + e) == |f|
  {
    if f == [] {
      assert f + e == e;
    } else {
      assert (f + e)[1..] == f[1..] + e;
      RunOfDigits(f[1..], e);
    }
  }

  lemma ExponentFound(e: Text)
    requires ExponentPart(e)
    ensures ExponentLength(e) == |e|
  {
    if e != [] {
      var s := SignLength(e[1..]);
      assert e[1..][s..] == e[1 + s..];
      RunOfDigits(e[1 + s..], []);
      assert e[1 + s..] + [] == e[1 + s..];
    }
  }

  lemma IntFound(i: Text, rest: Text)
    requires IntPart(i) && (rest == [] || !IsDigit(rest[0]))
    ensures IntLength(i + rest) == |i|
  {
    RunOfDigits(i, rest);
  }

  lemma TailFound(f: Text, e: Text)
    requires FractionPart(f) && ExponentPart(e)
    ensures TailLength(f + e) == |f + e| && (f + e == [] || !IsDigit((f + e)[0]))
  {
    FractionFound(f, e);
    ExponentFound(e);
    assert (f + e)[|f|..] == e;
    hide FractionLength, ExponentLength;
  }

  /** The digits and what follows them, when what follows is a whole tail. */
  lemma DigitsFound(i: Text, rest: Text)
    requires IntPart(i) && TailLength(rest) == |rest| && (rest == [] || !IsDigit(rest[0]))
    ensures IsNumeral(i + rest) && IsNumeral(['-' as int] + (i + rest))
  {
    var t := i + rest;
    IntFound(i, rest);
    assert t[|i|..] == rest && t[0] == i[0] && t[0..] == t;
    assert (['-' as int] + t)[1..] == t && (['-' as int] + t)[1 + |i|..] == rest;
    hide TailLength, IntLength, IntPart;
  }

  lemma SpelledIsNumeral(t: Text, minus: Text, i: Text, f: Text, e: Text)
    requires Spelled(t, minus, i, f, e)
    ensures IsNumeral(t)
  {
    TailFound(f, e);
    DigitsFound(i, f + e);
    hide *;
    Regroup(minus + i, f, e);
    Regroup(minus, i, f + e);
    if minus == [] { assert minus + (i + (f + e)) == i + (f + e); }
  }

  lemma SlicesSpell(t: Text, m: nat, n: nat, k: nat)
    requires m + n + k <= |t| && (t[..m] == [] || t[..m] == ['-' as int])
    requires IntPart(t[m..][..n]) && FractionPart(t[m + n..][..k]) && ExponentPart(t[m + n..][k..])
    ensures NumberGrammar(t)
  {
    hide IntPart, FractionPart, ExponentPart;
    var minus, i, f, e := t[..m], t[m..][..n], t[m + n..][..k], t[m + n..][k..];
    assert t == minus + i + f + e;
    assert Spelled(t, minus, i, f, e);
  }

  lemma TailIs(rest: Text)
    requires TailLength(rest) == |rest|
    ensures var k := FractionLength(rest); FractionPart(rest[..k]) && ExponentPart(rest[k..])
  {
    var e := rest[FractionLength(rest)..];
    FractionIs(rest);
    ExponentIs(e);
    assert e[..|e|] == e;
    hide FractionLength, ExponentLength, FractionPart, ExponentPart;
  }

  lemma NumeralIsSpelled(t: Text)
    requires IsNumeral(t)
    ensures NumberGrammar(t)
  {
    var m := MinusLength(t);
    var n := IntLength(t[m..]);
    assert t[..m] == [] || t[..m] == ['-' as int];
    hide MinusLength, IntLength, TailLength, FractionLength;
    assert n > 0 && TailLength(t[m + n..]) == |t[m + n..]|;
    hide *;
    IntIs(t[m..]);
    TailIs(t[m + n..]);
    SlicesSpell(t, m, n, FractionLength(t[m + n..]));
  }

  lemma IntIs(t: Text)
    requires IntLength(t) > 0
    ensures IntPart(t[..IntLength(t)])
  {
    RunIs(t);
  }

  /** A text is a numeral for the parser exactly when the grammar derives it. */
  lemma NumeralExactly(t: Text)
    ensures IsNumeral(t) <==> NumberGrammar(t)
  {
    if IsNumeral(t) { NumeralIsSpelled(t); }
    if minus, i, f, e :| Spelled(t, minus, i, f, e) { SpelledIsNumeral(t, minus, i, f, e); }
    hide IsNumeral, Spelled;
  }

  // ----- strings -----

  /** What is written for a unit of a string: itself, or one of seven short escapes, or four hexadecimal digits. */
  lemma EscapesAre(u: CodeUnit)
    ensures EscapeUnit('"' as int) == ['\\' as int, '"' as int] && EscapeUnit('\\' as int) == ['\\' as int, '\\' as int]
    ensures EscapeUnit(8) == ['\\' as int, 'b' as int] && EscapeUnit(9) == ['\\' as int, 't' as int]
    ensures EscapeUnit(10) == ['\\' as int, 'n' as int] && EscapeUnit(12) == ['\\' as int, 'f' as int]
    ensures EscapeUnit(13) == ['\\' as int, 'r' as int]
    ensures u >= 0x20 && u != '"' as int && u != '\\' as int && !(0xD800 <= u <= 0xDFFF) ==> EscapeUnit(u) == [u]
    ensures u !in {8, 9, 10, 12, 13} && (u < 0x20 || 0xD800 <= u <= 0xDFFF) ==>
      |EscapeUnit(u)| == 6 && EscapeUnit(u)[..2] == ['\\' as int, 'u' as int]
  {
  }

  /** The hexadecimal digits are those of both cases, and stand for 0 to 15. */
  lemma HexDigitsAre(u: CodeUnit)
    ensures IsHex(u) <==>
      '0' as int <= u <= '9' as int || 'a' as int <= u <= 'f' as int || 'A' as int <= u <= 'F' as int
    ensures '0' as int <= u <= '9' as int ==> HexValue(u) == u - '0' as int
    ensures 'a' as int <= u <= 'f' as int ==> HexValue(u) == 10 + (u - 'a' as int)
    ensures 'A' as int <= u <= 'F' as int ==> HexValue(u) == 10 + (u - 'A' as int)
  {
  }

  // ----- white space -----

  predicate BlankUnit(u: CodeUnit) {
    u == ' ' as int || u == '\t' as int || u == '\n' as int || u == '\r' as int
  }

  predicate Blank(t: Text) {
    forall i :: 0 <= i < |t| ==> BlankUnit(t[i])
  }

  /** Skipping drops the longest blank front. */
  lemma {:induction false} SkipsExactly(t: Text)
    ensures var n := |t| - |SkipWhitespace(t)|;
      SkipWhitespace(t) == t[n..] && Blank(t[..n]) && (n < |t| ==> !BlankUnit(t[n]))
  {
    if t != [] && IsWhitespace(t[0]) {
      SkipsExactly(t[1..]);
      var n := |t[1..]| - |SkipWhitespace(t[1..])|;
      assert t[..n + 1] == [t[0]] + t[1..][..n];
    }
  }

  /** A document is a value with nothing but white space after it. */
  lemma DocumentExactly(text: Text, v: Json)
    ensures ParseDocument(text) == Valid(v) <==> exists rest :: ParseValue(text) == Done(v, rest) && Blank(rest)
  {
    hide ParseValue;
    forall rest: Text ensures SkipWhitespace(rest) == [] <==> Blank(rest) {
      SkipsExactly(rest);
      assert rest[..|rest|] == rest;
    }
    hide Blank, SkipWhitespace;
  }
}
