module JsonScan {
  // The brace scanner that finds JSON objects embedded in Reviewer prose
  // (`embeddedJsonObjects`).

  import opened Utf16
  import opened Json

  datatype Scan = Scan(start: int, depth: int, quoted: bool, escaped: bool, values: seq<Json>)

  const INITIAL := Scan(-1, 0, false, false, [])

  /** One iteration of the scanner's loop. */
  function Step(output: Text, i: nat, st: Scan): Scan
    requires i < |output| && st.start <= i
  {
    var c := output[i];
    if st.start < 0 then
      if c == LBRACE then st.(start := i, depth := 1) else st
    else if st.quoted then
      if st.escaped then st.(escaped := false)
      else if c == BACKSLASH then st.(escaped := true)
      else if c == QUOTE then st.(quoted := false)
      else st
    else if c == QUOTE then st.(quoted := true)
    else if c == LBRACE then st.(depth := st.depth + 1)
    else if c == RBRACE then
      if st.depth - 1 == 0 then
        match ParseDocument(output[st.start..i + 1])
        case Invalid => st.(depth := 0, start := -1)
        case Valid(v) => st.(depth := 0, start := -1, values := st.values + [v])
      else st.(depth := st.depth - 1)
    else st
  }

  function Run(output: Text, st: Scan, from: int, end: int): (r: Scan)
    requires 0 <= from <= end <= |output| && st.start <= from
    ensures r.start <= end
    decreases end - from
  {
    if from >= end then st else Run(output, Step(output, from, st), from + 1, end)
  }

  lemma {:induction false} RunThrough(output: Text, st: Scan, from: nat, middle: nat, end: nat)
    requires from <= middle <= end <= |output| && st.start <= from
    ensures Run(output, st, from, end) == Run(output, Run(output, st, from, middle), middle, end)
    decreases middle - from
  {
    if from < middle { RunThrough(output, Step(output, from, st), from + 1, middle, end); }
  }

  lemma RunJoins(output: Text, st: Scan, from: nat, st1: Scan, middle: nat, st2: Scan, end: nat)
    requires from <= middle <= end <= |output| && st.start <= from && st1.start <= middle
    requires Run(output, st, from, middle) == st1 && Run(output, st1, middle, end) == st2
    ensures Run(output, st, from, end) == st2
  {
    hide Run;
    RunThrough(output, st, from, middle, end);
  }

  method EmbeddedJsonObjects(output: Text) returns (values: seq<Json>)
    ensures values == Run(output, INITIAL, 0, |output|).values
  {
    values := [];
    var start := -1;
    var depth := 0;
    var quoted := false;
    var escaped := false;
    for index := 0 to |output|
      invariant start <= index
      invariant Scan(start, depth, quoted, escaped, values) == Run(output, INITIAL, 0, index)
    {
      RunThrough(output, INITIAL, 0, index, index + 1);
      var character := output[index];
      if start < 0 {
        if character == LBRACE {
          start := index;
          depth := 1;
        }
        continue;
      }
      if quoted {
        if escaped {
          escaped := false;
        } else if character == BACKSLASH {
          escaped := true;
        } else if character == QUOTE {
          quoted := false;
        }
        continue;
      }
      if character == QUOTE {
        quoted := true;
      } else if character == LBRACE {
        depth := depth + 1;
      } else if character == RBRACE {
        depth := depth - 1;
        if depth == 0 {
          match ParseDocument(output[start..index + 1]) {
            case Invalid =>
            case Valid(v) => values := values + [v];
          }
          start := -1;
        }
      }
    }
  }

  // ----- the scanner crosses a printed value without leaving its depth -----

  /** From `a` the scanner reaches `b`, keeping its start and never dipping below depth `d`. */
  ghost predicate Reaches(output: Text, a: Scan, from: nat, end: nat, b: Scan, d: int) {
    && from <= end <= |output| && 0 <= a.start <= from
    && Run(output, a, from, end) == b
    && forall k {:trigger Run(output, a, from, k)} :: from <= k <= end ==>
         Run(output, a, from, k).depth >= d && Run(output, a, from, k).start == a.start
  }

  lemma ReachesCompose(output: Text, a: Scan, from: nat, middle: nat, b: Scan, end: nat, c: Scan, d: int)
    requires Reaches(output, a, from, middle, b, d) && Reaches(output, b, middle, end, c, d)
    ensures Reaches(output, a, from, end, c, d)
  {
    RunThrough(output, a, from, middle, end);
    forall k | from <= k <= end
      ensures Run(output, a, from, k).depth >= d && Run(output, a, from, k).start == a.start
    {
      if k > middle { RunThrough(output, a, from, middle, k); }
    }
  }

  lemma ReachesOne(output: Text, a: Scan, from: nat, b: Scan, d: int)
    requires from < |output| && 0 <= a.start <= from && Step(output, from, a) == b
    requires a.depth >= d && b.depth >= d && a.start == b.start
    ensures Reaches(output, a, from, from + 1, b, d)
  {
    assert Run(output, a, from, from) == a;
    assert Run(output, a, from, from + 1) == b;
  }

  lemma ReachesEnds(output: Text, a: Scan, from: nat, end: nat, b: Scan, d: int)
    requires Reaches(output, a, from, end, b, d)
    ensures 0 <= a.start <= from <= end <= |output| && Run(output, a, from, end) == b
  {
  }

  predicate Holds(output: Text, from: nat, t: Text) {
    from + |t| <= |output| && output[from..from + |t|] == t
  }

  lemma HoldsSplit(output: Text, from: nat, a: Text, b: Text)
    requires Holds(output, from, a + b)
    ensures Holds(output, from, a) && Holds(output, from + |a|, b)
  {
    assert output[from..from + |a + b|][..|a|] == a;
    assert output[from..from + |a + b|][|a|..] == b;
  }

  /** Units that change nothing for the scanner, in the state it is in. */
  ghost predicate Idle(t: Text, quoted: bool) {
    forall i :: 0 <= i < |t| ==>
      t[i] != QUOTE && (if quoted then t[i] != BACKSLASH else t[i] != LBRACE && t[i] != RBRACE)
  }

  lemma {:induction false} IdleReaches(output: Text, from: nat, t: Text, st: Scan)
    requires Holds(output, from, t) && Idle(t, st.quoted) && 0 <= st.start <= from && !st.escaped
    ensures Reaches(output, st, from, from + |t|, st, st.depth)
    decreases |t|
  {
    if |t| == 0 {
      assert Run(output, st, from, from) == st;
    } else {
      assert t == [t[0]] + t[1..];
      HoldsSplit(output, from, [t[0]], t[1..]);
      assert output[from] == output[from..from + 1][0] == t[0];
      ReachesOne(output, st, from, st, st.depth);
      IdleReaches(output, from + 1, t[1..], st);
      ReachesCompose(output, st, from, from + 1, st, from + |t|, st, st.depth);
    }
  }

  lemma EscapeUnitReaches(output: Text, from: nat, u: CodeUnit, st: Scan)
    requires Holds(output, from, EscapeUnit(u)) && 0 <= st.start <= from && st.quoted && !st.escaped
    ensures Reaches(output, st, from, from + |EscapeUnit(u)|, st, st.depth)
  {
    var e := EscapeUnit(u);
    if |e| == 1 {
      IdleReaches(output, from, e, st);
    } else {
      var rest := e[2..];
      assert Idle(rest, true);
      assert e == [e[0], e[1]] + rest;
      HoldsSplit(output, from, [e[0], e[1]], rest);
      assert output[from] == output[from..from + 2][0] && output[from + 1] == output[from..from + 2][1];
      ReachesOne(output, st, from, st.(escaped := true), st.depth);
      ReachesOne(output, st.(escaped := true), from + 1, st, st.depth);
      ReachesCompose(output, st, from, from + 1, st.(escaped := true), from + 2, st, st.depth);
      IdleReaches(output, from + 2, rest, st);
      ReachesCompose(output, st, from, from + 2, st, from + |e|, st, st.depth);
    }
  }

  lemma ReachesNothing(output: Text, from: nat, st: Scan)
    requires from <= |output| && 0 <= st.start <= from
    ensures Reaches(output, st, from, from, st, st.depth)
  {
    assert Run(output, st, from, from) == st;
  }

  /** The first code point of a text, escaped, and the text after it. */
  function EscapedFrontUnit(s: Text): Text
    requires |s| > 0
  {
    if PairAt(s, 0) then [s[0], s[1]] else EscapeUnit(s[0])
  }

  function EscapedRest(s: Text): (r: Text)
    requires |s| > 0
    ensures |r| < |s|
  {
    if PairAt(s, 0) then s[2..] else s[1..]
  }

  lemma EscapedHolds(output: Text, from: nat, s: Text)
    requires |s| > 0 && Holds(output, from, Escaped(s))
    ensures Holds(output, from, EscapedFrontUnit(s))
      && Holds(output, from + |EscapedFrontUnit(s)|, Escaped(EscapedRest(s)))
    ensures |Escaped(s)| == |EscapedFrontUnit(s)| + |Escaped(EscapedRest(s))|
  {
    hide EscapeUnit, Holds;
    assert Escaped(s) == EscapedFrontUnit(s) + Escaped(EscapedRest(s));
    HoldsSplit(output, from, EscapedFrontUnit(s), Escaped(EscapedRest(s)));
  }

  lemma EscapedUnitReaches(output: Text, from: nat, s: Text, st: Scan)
    requires |s| > 0
      && Holds(output, from, EscapedFrontUnit(s))
      && 0 <= st.start <= from
      && st.quoted
      && !st.escaped
    ensures Reaches(output, st, from, from + |EscapedFrontUnit(s)|, st, st.depth)
  {
    hide Reaches, Holds, Run, EscapeUnit, Step;
    if PairAt(s, 0) {
      IdleReaches(output, from, [s[0], s[1]], st);
    } else {
      EscapeUnitReaches(output, from, s[0], st);
    }
  }

  lemma {:induction false} EscapedReaches(output: Text, from: nat, s: Text, st: Scan)
    requires Holds(output, from, Escaped(s)) && 0 <= st.start <= from && st.quoted && !st.escaped
    ensures Reaches(output, st, from, from + |Escaped(s)|, st, st.depth)
    decreases |s|
  {
    if |s| == 0 {
      ReachesNothing(output, from, st);
    } else {
      hide *;
      var middle := from + |EscapedFrontUnit(s)|;
      EscapedHolds(output, from, s);
      EscapedUnitReaches(output, from, s, st);
      EscapedReaches(output, middle, EscapedRest(s), st);
      ReachesCompose(output, st, from, middle, st, middle + |Escaped(EscapedRest(s))|, st, st.depth);
    }
  }

  lemma QuoteReaches(output: Text, from: nat, s: Text, st: Scan)
    requires Holds(output, from, Quote(s)) && 0 <= st.start <= from && !st.quoted && !st.escaped
    ensures Reaches(output, st, from, from + |Quote(s)|, st, st.depth)
  {
    var inside := st.(quoted := true);
    var body := Escaped(s);
    var close := from + 1 + |body|;
    HoldsSplit(output, from, [QUOTE] + body, [QUOTE]);
    HoldsSplit(output, from, [QUOTE], body);
    assert output[from] == output[from..from + 1][0] && output[close] == output[close..close + 1][0];
    ReachesOne(output, st, from, inside, st.depth);
    EscapedReaches(output, from + 1, s, inside);
    ReachesCompose(output, st, from, from + 1, inside, close, inside, st.depth);
    ReachesOne(output, inside, close, st, st.depth);
    ReachesCompose(output, st, from, close, inside, close + 1, st, st.depth);
  }

  /** Scanning a printed value inside an object returns to the same state at the same depth. */
  lemma {:induction false} ValueReaches(output: Text, from: nat, v: Json, st: Scan)
    requires WellFormedValue(v) && Holds(output, from, Print(v))
    requires 0 <= st.start <= from && st.depth >= 1 && !st.quoted && !st.escaped
    ensures Reaches(output, st, from, from + |Print(v)|, st, st.depth)
    decreases v
  {
    hide Reaches, Holds, Run, WellFormed, IsNumeral;
    match v {
      case Num(lexeme) =>
        NumeralUnits(lexeme);
        IdleReaches(output, from, lexeme, st);
      case Str(s) => QuoteReaches(output, from, s, st);
      case Arr(items) =>
        var body := PrintItems(items);
        HoldsSplit(output, from, [LBRACKET] + body, [RBRACKET]);
        HoldsSplit(output, from, [LBRACKET], body);
        IdleReaches(output, from, [LBRACKET], st);
        ItemsReach(output, from + 1, items, st);
        ReachesCompose(output, st, from, from + 1, st, from + 1 + |body|, st, st.depth);
        IdleReaches(output, from + 1 + |body|, [RBRACKET], st);
        ReachesCompose(output, st, from, from + 1 + |body|, st, from + 2 + |body|, st, st.depth);
      case Obj(members) => ObjectReaches(output, from, members, st);
      case _ => IdleReaches(output, from, Print(v), st);
    }
  }

  lemma {:induction false} ObjectReaches(output: Text, from: nat, members: seq<Member>, st: Scan)
    requires MembersWellFormed(members)
    requires Holds(output, from, [LBRACE] + PrintMembers(members) + [RBRACE])
    requires 0 <= st.start <= from && st.depth >= 1 && !st.quoted && !st.escaped
    ensures Reaches(output, st, from, from + 2 + |PrintMembers(members)|, st, st.depth)
    decreases members, 1
  {
    var body := PrintMembers(members);
    var inside := st.(depth := st.depth + 1);
    var close := from + 1 + |body|;
    HoldsSplit(output, from, [LBRACE] + body, [RBRACE]);
    HoldsSplit(output, from, [LBRACE], body);
    UnitAt(output, from, LBRACE);
    UnitAt(output, close, RBRACE);
    hide Reaches, Holds, Run, PrintMembers;
    ReachesOne(output, st, from, inside, st.depth);
    MembersReach(output, from + 1, members, inside);
    LowerBound(output, inside, from + 1, close, inside, inside.depth, st.depth);
    ReachesCompose(output, st, from, from + 1, inside, close, inside, st.depth);
    ReachesOne(output, inside, close, st, st.depth);
    ReachesCompose(output, st, from, close, inside, close + 1, st, st.depth);
  }

  lemma UnitAt(output: Text, from: nat, u: CodeUnit)
    requires Holds(output, from, [u])
    ensures from < |output| && output[from] == u
  {
    assert output[from] == output[from..from + 1][0];
  }

  lemma LowerBound(output: Text, a: Scan, from: nat, end: nat, b: Scan, d: int, e: int)
    requires Reaches(output, a, from, end, b, d) && e <= d
    ensures Reaches(output, a, from, end, b, e)
  {
  }

  lemma HoldsAcrossComma(output: Text, from: nat, here: Text, rest: Text)
    requires Holds(output, from, here + [COMMA] + rest)
    ensures Holds(output, from, here) && Holds(output, from + |here|, [COMMA])
    ensures Holds(output, from + |here| + 1, rest)
  {
    HoldsSplit(output, from, here + [COMMA], rest);
    HoldsSplit(output, from, here, [COMMA]);
  }

  ghost predicate AllWellFormed(items: seq<Json>) {
    forall i :: 0 <= i < |items| ==> WellFormedValue(items[i])
  }

  ghost predicate MembersWellFormed(members: seq<Member>) {
    forall i :: 0 <= i < |members| ==> WellFormedValue(members[i].value)
  }

  lemma AllWellFormedSplit(items: seq<Json>)
    requires AllWellFormed(items) && |items| > 0
    ensures WellFormedValue(items[0]) && AllWellFormed(items[1..])
  {
    hide WellFormedValue;
  }

  lemma MembersWellFormedSplit(members: seq<Member>)
    requires MembersWellFormed(members) && |members| > 0
    ensures WellFormedValue(members[0].value) && MembersWellFormed(members[1..])
  {
    hide WellFormedValue;
  }

  lemma ItemsHold(output: Text, from: nat, items: seq<Json>)
    requires |items| > 1 && Holds(output, from, PrintItems(items))
    ensures Holds(output, from, Print(items[0])) && Holds(output, from + |Print(items[0])|, [COMMA])
    ensures Holds(output, from + |Print(items[0])| + 1, PrintItems(items[1..]))
    ensures PrintItems(items) == Print(items[0]) + [COMMA] + PrintItems(items[1..])
  {
    hide Print, Holds;
    HoldsAcrossComma(output, from, Print(items[0]), PrintItems(items[1..]));
  }

  lemma {:induction false} ItemsReach(output: Text, from: nat, items: seq<Json>, st: Scan)
    requires AllWellFormed(items)
    requires Holds(output, from, PrintItems(items))
    requires 0 <= st.start <= from && st.depth >= 1 && !st.quoted && !st.escaped
    ensures Reaches(output, st, from, from + |PrintItems(items)|, st, st.depth)
    decreases items
  {
    hide WellFormedValue, Print, Run, Step;
    if |items| == 0 {
      ReachesNothing(output, from, st);
    } else if |items| == 1 {
      hide Reaches, Holds;
      ValueReaches(output, from, items[0], st);
    } else {
      hide *;
      AllWellFormedSplit(items);
      ItemsHold(output, from, items);
      ValueReaches(output, from, items[0], st);
      ItemsReach(output, from + |Print(items[0])| + 1, items[1..], st);
      ReachesAcrossComma(output, from, Print(items[0]), PrintItems(items[1..]), st);
    }
  }

  lemma {:induction false} MemberReaches(output: Text, from: nat, m: Member, st: Scan)
    requires WellFormedValue(m.value) && Holds(output, from, PrintMember(m))
    requires 0 <= st.start <= from && st.depth >= 1 && !st.quoted && !st.escaped
    ensures Reaches(output, st, from, from + |PrintMember(m)|, st, st.depth)
    decreases m
  {
    hide Reaches, Holds, Run, WellFormedValue, Print, Quote;
    var key := Quote(m.key);
    var at := from + |key| + 1;
    HoldsSplit(output, from, key + [COLON], Print(m.value));
    HoldsSplit(output, from, key, [COLON]);
    QuoteReaches(output, from, m.key, st);
    IdleReaches(output, from + |key|, [COLON], st);
    ReachesCompose(output, st, from, from + |key|, st, at, st, st.depth);
    ValueReaches(output, at, m.value, st);
    ReachesCompose(output, st, from, at, st, at + |Print(m.value)|, st, st.depth);
  }

  lemma ReachesAcrossComma(output: Text, from: nat, here: Text, rest: Text, st: Scan)
    requires Holds(output, from + |here|, [COMMA])
      && 0 <= st.start <= from
      && st.depth >= 1
      && !st.quoted
      && !st.escaped
    requires Reaches(output, st, from, from + |here|, st, st.depth)
    requires Reaches(output, st, from + |here| + 1, from + |here| + 1 + |rest|, st, st.depth)
    ensures Reaches(output, st, from, from + |here + [COMMA] + rest|, st, st.depth)
  {
    IdleReaches(output, from + |here|, [COMMA], st);
    hide Reaches, Holds, Run, Step;
    ReachesCompose(output, st, from, from + |here|, st, from + |here| + 1, st, st.depth);
    ReachesCompose(output, st, from, from + |here| + 1, st, from + |here| + 1 + |rest|, st, st.depth);
  }

  lemma MembersHold(output: Text, from: nat, members: seq<Member>)
    requires |members| > 1 && Holds(output, from, PrintMembers(members))
    ensures Holds(output, from, PrintMember(members[0]))
      && Holds(output, from + |PrintMember(members[0])|, [COMMA])
    ensures Holds(output, from + |PrintMember(members[0])| + 1, PrintMembers(members[1..]))
    ensures PrintMembers(members) == PrintMember(members[0]) + [COMMA] + PrintMembers(members[1..])
  {
    hide PrintMember, Holds;
    HoldsAcrossComma(output, from, PrintMember(members[0]), PrintMembers(members[1..]));
  }

  lemma {:induction false} MembersReach(output: Text, from: nat, members: seq<Member>, st: Scan)
    requires MembersWellFormed(members)
    requires Holds(output, from, PrintMembers(members))
    requires 0 <= st.start <= from && st.depth >= 1 && !st.quoted && !st.escaped
    ensures Reaches(output, st, from, from + |PrintMembers(members)|, st, st.depth)
    decreases members, 0
  {
    hide WellFormedValue, PrintMember, Run, Step;
    if |members| == 0 {
      ReachesNothing(output, from, st);
    } else if |members| == 1 {
      hide Reaches, Holds;
      MemberReaches(output, from, members[0], st);
    } else {
      hide *;
      MembersWellFormedSplit(members);
      MembersHold(output, from, members);
      MemberReaches(output, from, members[0], st);
      MembersReach(output, from + |PrintMember(members[0])| + 1, members[1..], st);
      ReachesAcrossComma(output, from, PrintMember(members[0]), PrintMembers(members[1..]), st);
    }
  }

  // ----- objects in prose -----

  datatype Piece = Piece(prose: Text, members: seq<Member>)

  ghost predicate Prose(t: Text) {
    forall i :: 0 <= i < |t| ==> t[i] != LBRACE
  }

  ghost predicate Printable(pieces: seq<Piece>) {
    forall i :: 0 <= i < |pieces| ==> Prose(pieces[i].prose) && WellFormedValue(Obj(pieces[i].members))
  }

  function Shown(piece: Piece): Text {
    piece.prose + Print(Obj(piece.members))
  }

  /** Objects printed one after the other, with prose before, between and after them. */
  function Render(pieces: seq<Piece>, last: Text): Text
    decreases |pieces|
  {
    if |pieces| == 0 then last
    else Shown(pieces[0]) + Render(pieces[1..], last)
  }

  function Objects(pieces: seq<Piece>): seq<Json> {
    if |pieces| == 0 then [] else [Obj(pieces[0].members)] + Objects(pieces[1..])
  }

  lemma {:induction false} ProseIsSkipped(output: Text, from: nat, t: Text, st: Scan)
    requires Holds(output, from, t) && Prose(t) && st.start < 0
    ensures Run(output, st, from, from + |t|) == st
    decreases |t|
  {
    if |t| > 0 {
      assert t == [t[0]] + t[1..];
      HoldsSplit(output, from, [t[0]], t[1..]);
      assert output[from] == output[from..from + 1][0] == t[0];
      ProseIsSkipped(output, from + 1, t[1..], st);
    }
  }

  lemma ObjectOpens(output: Text, from: nat, st: Scan)
    requires from < |output| && output[from] == LBRACE && st.start < 0 && !st.quoted && !st.escaped
    ensures Run(output, st, from, from + 1) == st.(start := from, depth := 1)
  {
    hide ParseDocument;
    assert Run(output, st, from, from + 1) == Run(output, Step(output, from, st), from + 1, from + 1);
  }

  lemma ObjectCloses(output: Text, close: nat, st: Scan, v: Json)
    requires close < |output|
      && output[close] == RBRACE
      && 0 <= st.start <= close
      && st.depth == 1
      && !st.quoted
      && !st.escaped
    requires ParseDocument(output[st.start..close + 1]) == Valid(v)
    ensures Run(output, st, close, close + 1) == Scan(-1, 0, false, false, st.values + [v])
  {
    hide ParseDocument;
    assert Run(output, st, close, close + 1) == Run(output, Step(output, close, st), close + 1, close + 1);
  }

  lemma ObjectHolds(output: Text, from: nat, members: seq<Member>, close: nat)
    requires Holds(output, from, Print(Obj(members))) && close == from + 1 + |PrintMembers(members)|
    ensures close < |output| && output[from] == LBRACE && output[close] == RBRACE
    ensures Holds(output, from + 1, PrintMembers(members))
    ensures |Print(Obj(members))| == |PrintMembers(members)| + 2
    ensures output[from..close + 1] == Print(Obj(members))
  {
    hide PrintMembers;
    var body := PrintMembers(members);
    assert Print(Obj(members)) == [LBRACE] + body + [RBRACE];
    HoldsSplit(output, from, [LBRACE] + body, [RBRACE]);
    HoldsSplit(output, from, [LBRACE], body);
    UnitAt(output, from, LBRACE);
    UnitAt(output, close, RBRACE);
  }

  lemma ObjectIsFound(output: Text, from: nat, members: seq<Member>, st: Scan)
    requires WellFormedValue(Obj(members)) && Holds(output, from, Print(Obj(members)))
    requires st.start < 0 && !st.quoted && !st.escaped
    ensures Run(output, st, from, from + |Print(Obj(members))|) ==
            Scan(-1, 0, false, false, st.values + [Obj(members)])
  {
    var open := st.(start := from, depth := 1);
    var close := from + 1 + |PrintMembers(members)|;
    assert MembersWellFormed(members);
    hide *;
    DocumentRoundTrip(Obj(members));
    ObjectHolds(output, from, members, close);
    MembersReach(output, from + 1, members, open);
    ReachesEnds(output, open, from + 1, close, open, open.depth);
    ObjectOpens(output, from, st);
    ObjectCloses(output, close, open, Obj(members));
    var found := Scan(-1, 0, false, false, st.values + [Obj(members)]);
    RunJoins(output, open, from + 1, open, close, found, close + 1);
    RunJoins(output, st, from, open, from + 1, found, close + 1);
  }

  lemma PieceIsFound(output: Text, from: nat, piece: Piece, st: Scan)
    requires Prose(piece.prose) && WellFormedValue(Obj(piece.members))
    requires Holds(output, from, Shown(piece)) && st.start < 0 && !st.quoted && !st.escaped
    ensures Run(output, st, from, from + |Shown(piece)|) == Scan(-1, 0, false, false, st.values + [Obj(piece.members)])
  {
    hide Run, Print, WellFormedValue, Holds;
    var at := from + |piece.prose|;
    HoldsSplit(output, from, piece.prose, Print(Obj(piece.members)));
    ProseIsSkipped(output, from, piece.prose, st);
    ObjectIsFound(output, at, piece.members, st);
    RunThrough(output, st, from, at, at + |Print(Obj(piece.members))|);
  }

  lemma RenderSplit(pieces: seq<Piece>, last: Text)
    requires Printable(pieces) && |pieces| > 0
    ensures Printable(pieces[1..]) && WellFormedValue(Obj(pieces[0].members)) && Prose(pieces[0].prose)
    ensures Render(pieces, last) == Shown(pieces[0]) + Render(pieces[1..], last)
    ensures Objects(pieces) == [Obj(pieces[0].members)] + Objects(pieces[1..])
  {
    hide Print, WellFormedValue, Prose;
  }

  lemma {:induction false} PiecesAreFound(output: Text, from: nat, pieces: seq<Piece>, last: Text, st: Scan)
    requires Printable(pieces) && Prose(last)
    requires from + |Render(pieces, last)| == |output| && Holds(output, from, Render(pieces, last))
    requires st.start < 0 && !st.quoted && !st.escaped
    ensures Run(output, st, from, |output|).values == st.values + Objects(pieces)
    decreases |pieces|
  {
    if |pieces| == 0 {
      ProseIsSkipped(output, from, last, st);
      hide Step, Prose;
    } else {
      hide *;
      var at := from + |Shown(pieces[0])|;
      var found := Scan(-1, 0, false, false, st.values + [Obj(pieces[0].members)]);
      RenderSplit(pieces, last);
      HoldsSplit(output, from, Shown(pieces[0]), Render(pieces[1..], last));
      PieceIsFound(output, from, pieces[0], st);
      PiecesAreFound(output, at, pieces[1..], last, found);
      RunJoins(output, st, from, found, at, Run(output, found, at, |output|), |output|);
      assert found.values + Objects(pieces[1..]) == st.values + Objects(pieces);
    }
  }

  /** The scanner returns exactly the printed objects, in order, whatever they hold. */
  lemma ScanFindsPrintedObjects(pieces: seq<Piece>, last: Text)
    requires Printable(pieces) && Prose(last)
    ensures var output := Render(pieces, last);
            Run(output, INITIAL, 0, |output|).values == Objects(pieces)
  {
    var output := Render(pieces, last);
    assert output[0..|output|] == output;
    PiecesAreFound(output, 0, pieces, last, INITIAL);
  }
}
