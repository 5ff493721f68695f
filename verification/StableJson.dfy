module StableJson {
  // The canonical serialisation under every digest of the ledger (`stableStringify`),
  // and the proof that it is canonical: equal outputs exactly for values that differ
  // at most in the order of object keys.

  import opened Utf16
  import opened Json

  // ----- Array.prototype.sort on keys: order by UTF-16 code units -----

  predicate Less(a: Text, b: Text) {
    if |b| == 0 then false
    else if |a| == 0 then true
    else if a[0] != b[0] then a[0] < b[0]
    else Less(a[1..], b[1..])
  }

  lemma {:induction false} LessTransitive(a: Text, b: Text, c: Text)
    requires Less(a, b) && Less(b, c)
    ensures Less(a, c)
    decreases |a|
  {
    if |a| > 0 && |c| > 0 && a[0] == b[0] && b[0] == c[0] { LessTransitive(a[1..], b[1..], c[1..]); }
  }

  lemma {:induction false} LessTotal(a: Text, b: Text)
    ensures Less(a, b) || Less(b, a) || a == b
    decreases |a|
  {
    if |a| > 0 && |b| > 0 && a[0] == b[0] {
      LessTotal(a[1..], b[1..]);
      if a[1..] == b[1..] { assert a == [a[0]] + a[1..] == [b[0]] + b[1..] == b; }
    }
  }

  lemma {:induction false} LessIrreflexive(a: Text)
    ensures !Less(a, a)
  {
    if |a| > 0 { LessIrreflexive(a[1..]); }
  }

  ghost predicate Distinct(keys: seq<Text>) {
    forall i, j :: 0 <= i < j < |keys| ==> keys[i] != keys[j]
  }

  ghost predicate Ascending(keys: seq<Text>) {
    forall i, j :: 0 <= i < j < |keys| ==> Less(keys[i], keys[j])
  }

  function Insert(k: Text, keys: seq<Text>): (r: seq<Text>)
    ensures multiset(r) == multiset(keys) + multiset{k}
  {
    if |keys| == 0 then [k]
    else if Less(k, keys[0]) then [k] + keys
    else
      assert keys == [keys[0]] + keys[1..];
      [keys[0]] + Insert(k, keys[1..])
  }

  function SortKeys(keys: seq<Text>): (r: seq<Text>)
    ensures multiset(r) == multiset(keys)
  {
    if |keys| == 0 then []
    else
      assert keys == [keys[0]] + keys[1..];
      Insert(keys[0], SortKeys(keys[1..]))
  }

  lemma MemberOf(keys: seq<Text>, other: seq<Text>, k: Text)
    requires multiset(keys) == multiset(other)
    ensures k in keys <==> k in other
  {
    assert k in keys <==> k in multiset(keys);
    assert k in other <==> k in multiset(other);
  }

  lemma {:induction false} InsertAscending(k: Text, keys: seq<Text>)
    requires Ascending(keys) && k !in keys
    ensures Ascending(Insert(k, keys))
  {
    if |keys| == 0 {
    } else if Less(k, keys[0]) {
      forall j | 0 < j < |keys| ensures Less(k, keys[j]) { LessTransitive(k, keys[0], keys[j]); }
    } else {
      LessTotal(k, keys[0]);
      InsertAscending(k, keys[1..]);
      var tail := Insert(k, keys[1..]);
      forall j | 0 <= j < |tail| ensures Less(keys[0], tail[j]) {
        assert tail[j] in multiset(tail);
        assert tail[j] == k || tail[j] in keys[1..];
      }
    }
  }

  lemma {:induction false} SortAscending(keys: seq<Text>)
    requires Distinct(keys)
    ensures Ascending(SortKeys(keys))
  {
    if |keys| > 0 {
      SortAscending(keys[1..]);
      MemberOf(keys[1..], SortKeys(keys[1..]), keys[0]);
      InsertAscending(keys[0], SortKeys(keys[1..]));
    }
  }

  lemma AscendingFirst(a: seq<Text>, b: seq<Text>)
    requires |a| > 0 && Ascending(a) && Ascending(b) && forall k :: k in a <==> k in b
    ensures |b| > 0 && a[0] == b[0]
  {
    assert a[0] in b;
    var i :| 0 <= i < |b| && b[i] == a[0];
    assert b[0] in a;
    var j :| 0 <= j < |a| && a[j] == b[0];
    if i > 0 && j > 0 {
      LessTransitive(a[0], a[j], b[i]);
      LessIrreflexive(a[0]);
    }
  }

  /** There is only one ascending listing of a set of keys. */
  lemma {:induction false} AscendingUnique(a: seq<Text>, b: seq<Text>)
    requires Ascending(a) && Ascending(b) && forall k :: k in a <==> k in b
    ensures a == b
  {
    if |a| == 0 {
      if |b| > 0 { AscendingFirst(b, a); }
    } else {
      AscendingFirst(a, b);
      LessIrreflexive(a[0]);
      forall k ensures k in a[1..] <==> k in b[1..] {
        assert k in a <==> k == a[0] || k in a[1..];
        assert k in b <==> k == b[0] || k in b[1..];
      }
      AscendingUnique(a[1..], b[1..]);
      assert a == [a[0]] + a[1..] && b == [b[0]] + b[1..];
    }
  }

  // ----- stableStringify -----

  function Keys(members: seq<Member>): (r: seq<Text>)
    ensures |r| == |members| && forall i :: 0 <= i < |r| ==> r[i] == members[i].key
  {
    seq(|members|, i requires 0 <= i < |members| => members[i].key)
  }

  function IndexOf(members: seq<Member>, key: Text): (i: nat)
    requires key in Keys(members)
    ensures i < |members| && members[i].key == key
  {
    if members[0].key == key then 0
    else
      assert Keys(members) == [members[0].key] + Keys(members[1..]);
      1 + IndexOf(members[1..], key)
  }

  lemma SortedKeysAreKeys(members: seq<Member>)
    ensures forall k :: k in SortKeys(Keys(members)) <==> k in Keys(members)
  {
    forall k ensures k in SortKeys(Keys(members)) <==> k in Keys(members) {
      MemberOf(SortKeys(Keys(members)), Keys(members), k);
    }
  }

  /** `stableStringify` */
  function Stable(v: Json): Text
    decreases v, 0
  {
    match v
    case Arr(items) => [LBRACKET] + StableItems(items) + [RBRACKET]
    case Obj(members) =>
      SortedKeysAreKeys(members);
      [LBRACE] + StableMembers(members, SortKeys(Keys(members))) + [RBRACE]
    case _ => Print(v)
  }

  function StableItems(items: seq<Json>): Text
    decreases items, 0
  {
    if |items| == 0 then []
    else if |items| == 1 then Stable(items[0])
    else Stable(items[0]) + [COMMA] + StableItems(items[1..])
  }

  /** The members named by `keys`, in the order of `keys`. */
  function StableMembers(members: seq<Member>, keys: seq<Text>): Text
    requires forall k :: k in keys ==> k in Keys(members)
    decreases members, |keys|
  {
    if |keys| == 0 then []
    else
      var m := members[IndexOf(members, keys[0])];
      var here := Quote(keys[0]) + [COLON] + Stable(m.value);
      if |keys| == 1 then here else here + [COMMA] + StableMembers(members, keys[1..])
  }

  // ----- the normal form it prints -----

  function Canon(v: Json): Json
    decreases v, 0
  {
    match v
    case Arr(items) => Arr(seq(|items|, i requires 0 <= i < |items| => Canon(items[i])))
    case Obj(members) =>
      SortedKeysAreKeys(members);
      Obj(CanonMembers(members, SortKeys(Keys(members))))
    case _ => v
  }

  function CanonMembers(members: seq<Member>, keys: seq<Text>): (r: seq<Member>)
    requires forall k :: k in keys ==> k in Keys(members)
    ensures |r| == |keys|
    ensures forall i :: 0 <= i < |keys| ==> r[i] == Member(keys[i], Canon(members[IndexOf(members, keys[i])].value))
    decreases members, |keys|
  {
    if |keys| == 0 then []
    else [Member(keys[0], Canon(members[IndexOf(members, keys[0])].value))] + CanonMembers(members, keys[1..])
  }

  lemma {:induction false} StablePrintsCanon(v: Json)
    ensures Stable(v) == Print(Canon(v))
    decreases v, 0
  {
    match v {
      case Arr(items) => StableItemsPrintCanon(items);
      case Obj(members) =>
        SortedKeysAreKeys(members);
        StableMembersPrintCanon(members, SortKeys(Keys(members)));
      case _ =>
    }
  }

  lemma {:induction false} StableItemsPrintCanon(items: seq<Json>)
    ensures StableItems(items) == PrintItems(seq(|items|, i requires 0 <= i < |items| => Canon(items[i])))
    decreases items, 0
  {
    if |items| > 0 {
      StablePrintsCanon(items[0]);
      StableItemsPrintCanon(items[1..]);
      var canon := seq(|items|, i requires 0 <= i < |items| => Canon(items[i]));
      var rest := items[1..];
      assert canon[1..] == seq(|rest|, i requires 0 <= i < |rest| => Canon(rest[i]));
    }
  }

  lemma {:induction false} StableMembersPrintCanon(members: seq<Member>, keys: seq<Text>)
    requires forall k :: k in keys ==> k in Keys(members)
    ensures StableMembers(members, keys) == PrintMembers(CanonMembers(members, keys))
    decreases members, |keys|
  {
    if |keys| > 0 {
      var m := members[IndexOf(members, keys[0])];
      StablePrintsCanon(m.value);
      StableMembersPrintCanon(members, keys[1..]);
      var canon := CanonMembers(members, keys);
      assert canon[1..] == CanonMembers(members, keys[1..]);
      assert PrintMember(canon[0]) == Quote(keys[0]) + [COLON] + Stable(m.value);
    }
  }

  lemma {:induction false} CanonWellFormed(v: Json)
    requires WellFormedValue(v)
    ensures WellFormedValue(Canon(v))
    decreases v
  {
    match v {
      case Arr(items) =>
        forall i | 0 <= i < |items| ensures WellFormedValue(Canon(items[i])) { CanonWellFormed(items[i]); }
      case Obj(members) =>
        var keys := SortKeys(Keys(members));
        SortedKeysAreKeys(members);
        SortAscending(Keys(members));
        forall i, j | 0 <= i < j < |keys| ensures keys[i] != keys[j] { LessIrreflexive(keys[i]); }
        forall k | k in keys ensures WellFormedValue(Canon(members[IndexOf(members, k)].value)) {
          CanonWellFormed(members[IndexOf(members, k)].value);
        }
      case _ =>
    }
  }

  // ----- equality up to the order of keys -----

  /** Equal values, where an object is its set of key/value pairs. */
  ghost predicate SameValue(v: Json, w: Json)
    decreases v
  {
    match v
    case Arr(items) =>
      && w.Arr? && |items| == |w.items|
      && forall i :: 0 <= i < |items| ==> SameValue(items[i], w.items[i])
    case Obj(members) =>
      && w.Obj? && |members| == |w.members|
      && forall i :: 0 <= i < |members| ==> HasSame(w.members, members[i])
    case _ => v == w
  }

  ghost predicate HasSame(members: seq<Member>, m: Member)
    decreases m
  {
    exists j :: 0 <= j < |members| && m.key == members[j].key && SameValue(m.value, members[j].value)
  }

  lemma IndexOfUnique(members: seq<Member>, i: nat)
    requires DistinctKeys(members) && i < |members|
    ensures members[i].key in Keys(members) && IndexOf(members, members[i].key) == i
  {
    assert Keys(members)[i] == members[i].key;
  }

  /** Distinct keys and as many members: each side's keys are the other's. */
  lemma {:induction false} SameKeys(a: seq<Text>, b: seq<Text>)
    requires Distinct(a) && Distinct(b) && |a| == |b| && forall k :: k in a ==> k in b
    ensures forall k :: k in b ==> k in a
  {
    if |a| > 0 {
      assert a[0] in b;
      var j :| 0 <= j < |b| && b[j] == a[0];
      var rest := b[..j] + b[j + 1..];
      forall k | k in a[1..] ensures k in rest {
        assert k in a && k != a[0];
        var n :| 0 <= n < |b| && b[n] == k;
        assert n < j ==> rest[n] == k;
        assert n > j ==> rest[n - 1] == k;
      }
      SameKeys(a[1..], rest);
      forall k | k in b ensures k in a {
        if k != a[0] {
          var n :| 0 <= n < |b| && b[n] == k;
          assert n < j ==> rest[n] == k;
          assert n > j ==> rest[n - 1] == k;
          assert k in rest;
        }
      }
    }
  }

  lemma SameMembersSortAlike(members: seq<Member>, others: seq<Member>)
    requires DistinctKeys(members) && DistinctKeys(others) && |members| == |others|
    requires forall k :: k in Keys(members) ==> k in Keys(others)
    ensures SortKeys(Keys(members)) == SortKeys(Keys(others))
  {
    SameKeys(Keys(members), Keys(others));
    SortedKeysAreKeys(members);
    SortedKeysAreKeys(others);
    SortAscending(Keys(members));
    SortAscending(Keys(others));
    AscendingUnique(SortKeys(Keys(members)), SortKeys(Keys(others)));
  }

  lemma CanonMembersAgree(members: seq<Member>, others: seq<Member>, keys: seq<Text>)
    requires forall k :: k in keys ==> k in Keys(members) && k in Keys(others)
    requires forall k :: k in keys ==>
               Canon(members[IndexOf(members, k)].value) == Canon(others[IndexOf(others, k)].value)
    ensures CanonMembers(members, keys) == CanonMembers(others, keys)
  {
    hide Canon, IndexOf;
    var a, b := CanonMembers(members, keys), CanonMembers(others, keys);
    forall n | 0 <= n < |keys| ensures a[n] == b[n] { assert keys[n] in keys; }
  }

  lemma {:induction false} SameValueSameCanon(v: Json, w: Json)
    requires WellFormedValue(v) && WellFormedValue(w) && SameValue(v, w)
    ensures Canon(v) == Canon(w)
    decreases v
  {
    match v {
      case Arr(items) =>
        forall i | 0 <= i < |items| ensures Canon(items[i]) == Canon(w.items[i]) {
          SameValueSameCanon(items[i], w.items[i]);
        }
      case Obj(members) => SameMembersSameCanon(members, w.members);
      case _ =>
    }
  }

  lemma {:induction false} SameMembersSameCanon(members: seq<Member>, others: seq<Member>)
    requires WellFormedValue(Obj(members)) && WellFormedValue(Obj(others)) && |members| == |others|
    requires forall i :: 0 <= i < |members| ==> HasSame(others, members[i])
    ensures Canon(Obj(members)) == Canon(Obj(others))
    decreases members
  {
    forall k | k in Keys(members)
      ensures k in Keys(others)
      ensures Canon(members[IndexOf(members, k)].value) == Canon(others[IndexOf(others, k)].value)
    {
      hide Canon;
      var i := IndexOf(members, k);
      var j :| 0 <= j < |others| && members[i].key == others[j].key && SameValue(members[i].value, others[j].value);
      IndexOfUnique(others, j);
      SameValueSameCanon(members[i].value, others[j].value);
    }
    SameMembersSortAlike(members, others);
    SortedKeysAreKeys(members);
    CanonMembersAgree(members, others, SortKeys(Keys(members)));
  }

  lemma {:induction false} SameCanonSameValue(v: Json, w: Json)
    requires WellFormedValue(v) && WellFormedValue(w) && Canon(v) == Canon(w)
    ensures SameValue(v, w)
    decreases v
  {
    match v {
      case Arr(items) =>
        forall i | 0 <= i < |items| ensures SameValue(items[i], w.items[i]) {
          assert Canon(v).items[i] == Canon(w).items[i];
          SameCanonSameValue(items[i], w.items[i]);
        }
      case Obj(members) => SameCanonSameMembers(members, w);
      case _ =>
    }
  }

  lemma {:induction false} SameCanonSameMembers(members: seq<Member>, w: Json)
    requires WellFormedValue(Obj(members)) && WellFormedValue(w) && Canon(Obj(members)) == Canon(w)
    ensures w.Obj? && |members| == |w.members|
    ensures forall i :: 0 <= i < |members| ==> HasSame(w.members, members[i])
    decreases members, 1
  {
    var others := w.members;
    SortedKeysAreKeys(members);
    SortedKeysAreKeys(others);
    var ks, ls := SortKeys(Keys(members)), SortKeys(Keys(others));
    var cm, cw := CanonMembers(members, ks), CanonMembers(others, ls);
    assert |ks| == |multiset(ks)| == |members| && |ls| == |multiset(ls)| == |others|;
    forall n | 0 <= n < |ks| ensures ks[n] == ls[n] { assert cm[n] == cw[n]; }
    forall i | 0 <= i < |members|
      ensures HasSame(others, members[i])
    {
      IndexOfUnique(members, i);
      var k := members[i].key;
      var n :| 0 <= n < |ks| && ks[n] == k;
      assert cm[n] == cw[n];
      var j := IndexOf(others, k);
      SameCanonSameValue(members[i].value, others[j].value);
    }
  }

  /** A printed value determines the value (in its own order of keys). */
  lemma PrintInjective(v: Json, w: Json)
    requires WellFormedValue(v) && WellFormedValue(w) && Print(v) == Print(w)
    ensures v == w
  {
    DocumentRoundTrip(v);
    DocumentRoundTrip(w);
  }

  /** The law of the serialisation: two values have the same text exactly when they are equal up to
      the order of object keys, at any depth. */
  lemma StableIsCanonical(v: Json, w: Json)
    requires WellFormedValue(v) && WellFormedValue(w)
    ensures Stable(v) == Stable(w) <==> SameValue(v, w)
  {
    StablePrintsCanon(v);
    StablePrintsCanon(w);
    CanonWellFormed(v);
    CanonWellFormed(w);
    if Stable(v) == Stable(w) {
      PrintInjective(Canon(v), Canon(w));
      SameCanonSameValue(v, w);
    }
    if SameValue(v, w) { SameValueSameCanon(v, w); }
  }

  /** Writing the members of an object in another order gives the same value. */
  lemma ReorderedMembersAreSame(a: seq<Member>, b: seq<Member>)
    requires multiset(a) == multiset(b)
    ensures SameValue(Obj(a), Obj(b))
  {
    assert |a| == |multiset(a)| == |multiset(b)| == |b|;
    forall i | 0 <= i < |a|
      ensures HasSame(b, a[i])
    {
      assert a[i] in multiset(b);
      var j :| 0 <= j < |b| && b[j] == a[i];
      SameValueReflexive(a[i].value);
    }
  }

  lemma {:induction false} SameValueReflexive(v: Json)
    ensures SameValue(v, v)
    decreases v
  {
    match v {
      case Arr(items) => forall i | 0 <= i < |items| { SameValueReflexive(items[i]); }
      case Obj(members) =>
        forall i | 0 <= i < |members|
          ensures HasSame(members, members[i])
        {
          SameValueReflexive(members[i].value);
        }
      case _ =>
    }
  }

  /** The serialised text is itself JSON and reads back as the same value. */
  lemma StableReadsBack(v: Json)
    requires WellFormedValue(v)
    ensures ParseDocument(Stable(v)) == Valid(Canon(v)) && SameValue(v, Canon(v))
  {
    StablePrintsCanon(v);
    CanonWellFormed(v);
    DocumentRoundTrip(Canon(v));
    CanonIdempotent(v);
    SameCanonSameValue(v, Canon(v));
  }

  lemma {:induction false} CanonIdempotent(v: Json)
    requires WellFormedValue(v)
    ensures Canon(Canon(v)) == Canon(v)
    decreases v
  {
    match v {
      case Arr(items) =>
        forall i | 0 <= i < |items| ensures Canon(Canon(items[i])) == Canon(items[i]) { CanonIdempotent(items[i]); }
      case Obj(members) => CanonMembersIdempotent(members);
      case _ =>
    }
  }

  /** The members of a normalised object: the keys sorted, each with its value normalised. */
  function Normal(members: seq<Member>): seq<Member> {
    SortedKeysAreKeys(members);
    CanonMembers(members, SortKeys(Keys(members)))
  }

  lemma NormalShape(members: seq<Member>)
    requires WellFormedValue(Obj(members))
    ensures Canon(Obj(members)) == Obj(Normal(members)) && Keys(Normal(members)) == SortKeys(Keys(members))
    ensures Ascending(SortKeys(Keys(members))) && DistinctKeys(Normal(members))
  {
    SortAscending(Keys(members));
    CanonWellFormed(Obj(members));
    hide IndexOf;
  }

  lemma NormalKeysStay(members: seq<Member>)
    requires WellFormedValue(Obj(members))
    ensures SortKeys(Keys(Normal(members))) == SortKeys(Keys(members))
  {
    NormalShape(members);
    hide Canon, WellFormedValue, Normal;
    SortedKeysAreKeys(Normal(members));
    SortAscending(Keys(Normal(members)));
    AscendingUnique(SortKeys(Keys(Normal(members))), Keys(Normal(members)));
  }

  /** The n-th normalised member, and the n-th after normalising once more. */
  lemma NormalAt(members: seq<Member>, n: nat)
    requires WellFormedValue(Obj(members)) && n < |Normal(members)|
    ensures |Normal(Normal(members))| == |Normal(members)|
    ensures exists i :: 0 <= i < |members| && Normal(members)[n].value == Canon(members[i].value)
    ensures Normal(Normal(members))[n] == Member(Normal(members)[n].key, Canon(Normal(members)[n].value))
  {
    NormalShape(members);
    NormalKeysStay(members);
    IndexOfUnique(Normal(members), n);
    hide Canon, WellFormedValue, SortKeys, DistinctKeys, IndexOf;
    assert Keys(Normal(members))[n] == Normal(members)[n].key;
  }

  lemma {:induction false} CanonMembersIdempotent(members: seq<Member>)
    requires WellFormedValue(Obj(members))
    ensures Canon(Canon(Obj(members))) == Canon(Obj(members))
    decreases members
  {
    var once, twice := Normal(members), Normal(Normal(members));
    CanonWellFormed(Obj(members));
    NormalShape(members);
    NormalShape(once);
    NormalKeysStay(members);
    forall n | 0 <= n < |once| ensures n < |twice| && twice[n] == once[n] {
      NormalAt(members, n);
      var i :| 0 <= i < |members| && once[n].value == Canon(members[i].value);
      CanonIdempotent(members[i].value);
    }
    assert |twice| == |once|;
    hide Canon, WellFormedValue, Normal;
    assert twice == once;
  }
}
