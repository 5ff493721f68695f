// The issue graph: a crawl that closes it under parents and sub-issues, and the strict selection of the
// next task from what the crawl returns.
module IssueGraph {
  import opened Options

  datatype Ref = Ref(number: int, open: bool)
  datatype Issue = Issue(
    number: int, open: bool, labels: seq<string>, assignees: seq<string>, blockedBy: seq<Ref>, parent: Option<int>,
        subIssues: seq<Ref>,
    content: string)

  // ----- sorting by number, as the built-in stable sort does -----

  function Insert(x: Issue, xs: seq<Issue>): seq<Issue> {
    if xs == [] || x.number < xs[0].number then [x] + xs else [xs[0]] + Insert(x, xs[1..])
  }

  function SortIssues(xs: seq<Issue>): seq<Issue> {
    if xs == [] then [] else Insert(xs[|xs| - 1], SortIssues(xs[..|xs| - 1]))
  }

  predicate Ascending(xs: seq<Issue>) {
    forall i, j :: 0 <= i < j < |xs| ==> xs[i].number <= xs[j].number
  }

  predicate DistinctNumbers(xs: seq<Issue>) {
    forall i, j :: 0 <= i < j < |xs| ==> xs[i].number != xs[j].number
  }

  lemma {:induction false} InsertPermutes(x: Issue, xs: seq<Issue>)
    ensures multiset(Insert(x, xs)) == multiset(xs) + multiset{x}
  {
    if xs != [] && x.number >= xs[0].number {
      InsertPermutes(x, xs[1..]);
      assert xs == [xs[0]] + xs[1..];
    }
  }

  lemma {:induction false} InsertSorts(x: Issue, xs: seq<Issue>)
    requires Ascending(xs)
    ensures Ascending(Insert(x, xs)) && |Insert(x, xs)| == |xs| + 1
    ensures Insert(x, xs)[0] == if xs == [] || x.number < xs[0].number then x else xs[0]
  {
    if xs != [] && x.number >= xs[0].number {
      InsertSorts(x, xs[1..]);
      var rest := Insert(x, xs[1..]);
      assert xs[0].number <= rest[0].number by { if |xs| > 1 { assert xs[0].number <= xs[1..][0].number; } }
      assert Insert(x, xs) == [xs[0]] + rest;
    }
  }

  lemma {:induction false} SortAscends(xs: seq<Issue>)
    ensures Ascending(SortIssues(xs))
  {
    if xs != [] {
      SortAscends(xs[..|xs| - 1]);
      InsertSorts(xs[|xs| - 1], SortIssues(xs[..|xs| - 1]));
    }
  }

  lemma {:induction false} SortPermutes(xs: seq<Issue>)
    ensures multiset(SortIssues(xs)) == multiset(xs)
  {
    if xs != [] {
      SortPermutes(xs[..|xs| - 1]);
      InsertPermutes(xs[|xs| - 1], SortIssues(xs[..|xs| - 1]));
      assert xs == xs[..|xs| - 1] + [xs[|xs| - 1]];
    }
  }

  lemma SameMembers(xs: seq<Issue>, ys: seq<Issue>)
    requires multiset(xs) == multiset(ys)
    ensures |xs| == |ys| && forall x :: x in xs <==> x in ys
  {
    assert |multiset(xs)| == |multiset(ys)|;
    forall x ensures x in xs <==> x in ys { assert x in multiset(xs) <==> x in multiset(ys); }
  }

  lemma DistinctPermutes(xs: seq<Issue>, ys: seq<Issue>)
    requires DistinctNumbers(xs) && multiset(xs) == multiset(ys)
    ensures DistinctNumbers(ys)
  {
    SameMembers(xs, ys);
    forall i, j | 0 <= i < j < |ys| ensures ys[i].number != ys[j].number {
      if ys[i] == ys[j] {
        assert ys == ys[..i] + [ys[i]] + ys[i + 1..j] + [ys[j]] + ys[j + 1..];
        assert multiset(xs)[ys[i]] >= 2;
        TwiceMeansTwo(xs, ys[i]);
      } else {
        assert ys[i] in xs && ys[j] in xs;
      }
    }
  }

  lemma {:induction false} TwiceMeansTwo(xs: seq<Issue>, x: Issue)
    requires multiset(xs)[x] >= 2
    ensures exists i, j :: 0 <= i < j < |xs| && xs[i] == x && xs[j] == x
  {
    var n := |xs| - 1;
    assert xs == xs[..n] + [xs[n]];
    if xs[n] == x {
      assert x in multiset(xs[..n]);
      var i :| 0 <= i < n && xs[..n][i] == x;
      assert xs[i] == x && xs[n] == x;
    } else {
      TwiceMeansTwo(xs[..n], x);
      var i, j :| 0 <= i < j < |xs[..n]| && xs[..n][i] == x && xs[..n][j] == x;
      assert xs[i] == x && xs[j] == x;
    }
  }

  lemma SameHead(xs: seq<Issue>, ys: seq<Issue>)
    requires Ascending(xs)
      && Ascending(ys)
      && DistinctNumbers(xs)
      && multiset(xs) == multiset(ys)
      && xs != []
    ensures ys != [] && xs[0] == ys[0]
  {
    SameMembers(xs, ys);
    assert xs[0] in ys && ys[0] in xs;
    var i :| 0 <= i < |ys| && ys[i] == xs[0];
    var j :| 0 <= j < |xs| && xs[j] == ys[0];
    assert ys[0].number <= ys[i].number && xs[0].number <= xs[j].number;
    assert xs[0].number == xs[j].number;
  }

  lemma TailMultiset(xs: seq<Issue>)
    requires xs != []
    ensures multiset(xs[1..]) == multiset(xs) - multiset{xs[0]}
  {
    assert xs == [xs[0]] + xs[1..];
  }

  /** Two ascending lists of the same issues, no number twice, are one list. */
  lemma {:induction false} AscendingUnique(xs: seq<Issue>, ys: seq<Issue>)
    requires Ascending(xs) && Ascending(ys) && DistinctNumbers(xs) && multiset(xs) == multiset(ys)
    ensures xs == ys
    decreases |xs|
  {
    SameMembers(xs, ys);
    if xs != [] {
      SameHead(xs, ys);
      TailMultiset(xs);
      TailMultiset(ys);
      AscendingUnique(xs[1..], ys[1..]);
      assert xs == [xs[0]] + xs[1..] && ys == [ys[0]] + ys[1..];
    }
  }

  // ----- the crawl -----

  datatype Fetch = Found(issue: Issue) | Unavailable

  function References(i: Issue): seq<int> {
    (if i.parent.Some? then [i.parent.value] else []) + Numbers(i.subIssues)
  }

  function Numbers(refs: seq<Ref>): (r: seq<int>)
    ensures |r| == |refs| && forall k :: 0 <= k < |refs| ==> r[k] == refs[k].number
  {
    seq(|refs|, k requires 0 <= k < |refs| => refs[k].number)
  }

  predicate Refers(i: Issue, n: int) {
    n in References(i)
  }

  predicate HasNumber(xs: seq<Issue>, n: int) {
    exists j :: 0 <= j < |xs| && xs[j].number == n
  }

  /** Every reference of a known issue is known. */
  ghost predicate Closed(xs: seq<Issue>) {
    forall i, r :: 0 <= i < |xs| && Refers(xs[i], r) ==> HasNumber(xs, r)
  }

  // ----- what is reachable -----

  predicate Listed(listed: seq<Issue>, n: int) {
    HasNumber(listed, n)
  }

  /** A listed entry for n refers to r, or n is not listed and the issue fetched for it does. */
  predicate RefersTo(listed: seq<Issue>, fetch: int -> Fetch, n: int, r: int) {
    || (exists k :: 0 <= k < |listed| && listed[k].number == n && Refers(listed[k], r))
    || (!Listed(listed, n) && fetch(n).Found? && Refers(fetch(n).issue, r))
  }

  /** A path from a listed issue along references. */
  predicate IsPath(listed: seq<Issue>, fetch: int -> Fetch, p: seq<int>) {
    |p| > 0 && Listed(listed, p[0]) && forall i :: 0 <= i < |p| - 1 ==> RefersTo(listed, fetch, p[i], p[i + 1])
  }

  ghost predicate Reachable(listed: seq<Issue>, fetch: int -> Fetch, n: int) {
    exists p :: IsPath(listed, fetch, p) && p[|p| - 1] == n
  }

  /** Every reachable issue that is not listed can be fetched. */
  ghost predicate AllAvailable(listed: seq<Issue>, fetch: int -> Fetch) {
    forall n :: Reachable(listed, fetch, n) && !Listed(listed, n) ==> fetch(n).Found?
  }

  ghost predicate Holds(listed: seq<Issue>, fetch: int -> Fetch, s: set<int>) {
    forall n :: Reachable(listed, fetch, n) ==> n in s
  }

  /** No more than `limit` numbers are reachable. */
  ghost predicate AtMost(listed: seq<Issue>, fetch: int -> Fetch, limit: nat) {
    exists s :: Holds(listed, fetch, s) && |s| <= limit
  }

  lemma ListedReachable(listed: seq<Issue>, fetch: int -> Fetch, n: int)
    requires Listed(listed, n)
    ensures Reachable(listed, fetch, n)
  {
    assert IsPath(listed, fetch, [n]);
  }

  lemma ReachableStep(listed: seq<Issue>, fetch: int -> Fetch, n: int, r: int)
    requires Reachable(listed, fetch, n) && RefersTo(listed, fetch, n, r)
    ensures Reachable(listed, fetch, r)
  {
    var p :| IsPath(listed, fetch, p) && p[|p| - 1] == n;
    hide RefersTo, Listed;
    assert IsPath(listed, fetch, p + [r]);
  }

  lemma Subset(a: set<int>, b: set<int>)
    requires a <= b
    ensures |a| <= |b|
  {
    assert a + (b - a) == b && a * (b - a) == a - a;
    assert |a - a| == 0;
  }

  const SAFETY_LIMIT := 200

  /** Every reference of a fetched issue is fetched or still queued. */
  ghost predicate Covered(known: map<int, Issue>, queue: seq<int>) {
    forall k, r :: k in known && Refers(known[k], r) ==> r in known || r in queue
  }

  method EnqueueReferences(issue: Issue, queue: seq<int>, known: map<int, Issue>) returns (q: seq<int>)
    ensures queue <= q
    ensures forall r :: Refers(issue, r) ==> r in known || r in q
    ensures forall r :: r in q ==> r in queue || Refers(issue, r)
  {
    q := queue;
    if issue.parent.Some? && issue.parent.value !in known { q := q + [issue.parent.value]; }
    for k := 0 to |issue.subIssues|
      invariant queue <= q && (issue.parent.Some? ==> issue.parent.value in known || issue.parent.value in q)
      invariant forall j :: 0 <= j < k ==> issue.subIssues[j].number in known || issue.subIssues[j].number in q
      invariant forall r :: r in q ==> r in queue || Refers(issue, r)
    {
      assert Numbers(issue.subIssues)[k] == issue.subIssues[k].number;
      if issue.subIssues[k].number !in known { q := q + [issue.subIssues[k].number]; }
    }
  }

  /** The values of an insertion-ordered map. */
  function Values(known: map<int, Issue>, order: seq<int>): (r: seq<Issue>)
    requires forall i :: 0 <= i < |order| ==> order[i] in known
    ensures |r| == |order| && forall i :: 0 <= i < |order| ==> r[i] == known[order[i]]
  {
    seq(|order|, i requires 0 <= i < |order| => known[order[i]])
  }

  ghost predicate OrderOf(known: map<int, Issue>, order: seq<int>) {
    && (forall k :: k in known ==> k in order)
    && (forall i :: 0 <= i < |order| ==> order[i] in known)
    && (forall i, j :: 0 <= i < j < |order| ==> order[i] != order[j])
    && |order| == |known|
  }

  ghost predicate Faithful(known: map<int, Issue>) {
    forall k :: k in known ==> known[k].number == k
  }

  lemma CoveredAt(known: map<int, Issue>, queue: seq<int>, k: int, r: int)
    requires Covered(known, queue) && k in known && Refers(known[k], r)
    ensures r in known || r in queue
  {
  }

  lemma CoveredMeansClosed(known: map<int, Issue>, order: seq<int>)
    requires OrderOf(known, order) && Covered(known, []) && Faithful(known)
    ensures Closed(Values(known, order)) && DistinctNumbers(Values(known, order))
  {
    var xs := Values(known, order);
    forall i, r | 0 <= i < |xs| && Refers(xs[i], r) ensures HasNumber(xs, r) {
      assert order[i] in known && Refers(known[order[i]], r);
      CoveredAt(known, [], order[i], r);
      assert r in order;
      var j :| 0 <= j < |order| && order[j] == r;
      assert xs[j].number == r;
    }
    forall i, j | 0 <= i < j < |xs| ensures xs[i].number != xs[j].number {
      assert order[i] in known && order[j] in known;
    }
  }

  lemma ClosedPermutes(xs: seq<Issue>, ys: seq<Issue>)
    requires Closed(xs) && multiset(xs) == multiset(ys)
    ensures Closed(ys)
  {
    SameMembers(xs, ys);
    forall i, r | 0 <= i < |ys| && Refers(ys[i], r) ensures HasNumber(ys, r) {
      assert ys[i] in xs;
      var k :| 0 <= k < |xs| && xs[k] == ys[i];
      assert Refers(xs[k], r) && HasNumber(xs, r);
      var j :| 0 <= j < |xs| && xs[j].number == r;
      assert xs[j] in ys;
    }
  }

  ghost predicate FaithfulFetch(fetch: int -> Fetch) {
    forall n: int :: fetch(n).Found? ==> fetch(n).issue.number == n
  }

  predicate Extends(a: map<int, Issue>, b: map<int, Issue>) {
    forall k :: k in a ==> k in b && b[k] == a[k]
  }

  /** What is fetched or queued is reachable, what is fetched is what the fetch answered, and the listed issues
    * are there with their references fetched or queued. */
  ghost predicate Grounded(listed: seq<Issue>, fetch: int -> Fetch, known: map<int, Issue>, queue: seq<int>) {
    && (forall n :: n in known ==> Reachable(listed, fetch, n))
    && (forall r :: r in queue ==> Reachable(listed, fetch, r))
    && (forall n :: n in known && !Listed(listed, n) ==> fetch(n) == Found(known[n]))
    && (forall k :: 0 <= k < |listed| ==> listed[k].number in known)
    && (forall k, r :: 0 <= k < |listed| && Refers(listed[k], r) ==> r in known || r in queue)
  }

  /** The first k listed issues are known, and what they refer to is known or queued. */
  ghost predicate Gathered(listed: seq<Issue>, k: nat, known: map<int, Issue>, queue: seq<int>) {
    && k <= |listed|
    && (forall n :: n in known <==> HasNumber(listed[..k], n))
    && (forall r :: r in queue ==> exists j :: 0 <= j < k && Refers(listed[j], r))
    && (forall j, r :: 0 <= j < k && Refers(listed[j], r) ==> r in known || r in queue)
  }

  lemma HasNumberGrows(listed: seq<Issue>, k: nat, n: int)
    requires k < |listed|
    ensures HasNumber(listed[..k + 1], n) <==> HasNumber(listed[..k], n) || n == listed[k].number
  {
    if HasNumber(listed[..k], n) {
      var j :| 0 <= j < |listed[..k]| && listed[..k][j].number == n;
      assert listed[..k + 1][j].number == n;
    }
    assert listed[..k + 1][k] == listed[k];
  }

  lemma GatherStep(listed: seq<Issue>, k: nat, known: map<int, Issue>, queue: seq<int>, next: map<int, Issue>,
      rest: seq<int>)
    requires Gathered(listed, k, known, queue) && k < |listed| && next == known[listed[k].number := listed[k]]
    requires queue <= rest && forall r :: r in rest ==> r in queue || Refers(listed[k], r)
    requires forall r :: Refers(listed[k], r) ==> r in next || r in rest
    ensures Gathered(listed, k + 1, next, rest)
  {
    hide Refers, HasNumber;
    forall n ensures n in next <==> HasNumber(listed[..k + 1], n) { HasNumberGrows(listed, k, n); }
    forall r | r in rest ensures exists j :: 0 <= j < k + 1 && Refers(listed[j], r) {
      if r in queue {
        var j :| 0 <= j < k && Refers(listed[j], r);
      }
    }
  }

  lemma OrderGrows(known: map<int, Issue>, order: seq<int>, issue: Issue)
    requires OrderOf(known, order) && Faithful(known)
    ensures Faithful(known[issue.number := issue])
    ensures OrderOf(known[issue.number := issue], if issue.number in known then order else order + [issue.number])
  {
    var next := known[issue.number := issue];
    assert next.Keys == known.Keys + {issue.number};
    assert |next.Keys| == |next| && |known.Keys| == |known|;
    if issue.number in known { assert next.Keys == known.Keys; }
  }

  method Gather(listed: seq<Issue>) returns (known: map<int, Issue>, order: seq<int>, queue: seq<int>)
    ensures OrderOf(known, order) && Covered(known, queue) && Faithful(known)
    ensures forall fetch: int -> Fetch :: Grounded(listed, fetch, known, queue)
    ensures forall n :: n in known <==> Listed(listed, n)
  {
    known, order, queue := map[], [], [];
    NothingGathered(listed);
    hide *;
    for k := 0 to |listed|
      invariant OrderOf(known, order) && Covered(known, queue) && Faithful(known) && Gathered(listed, k, known, queue)
    {
      var issue := listed[k];
      OrderGrows(known, order, issue);
      if issue.number !in known { order := order + [issue.number]; }
      ghost var before, waiting := known, queue;
      known := known[issue.number := issue];
      queue := EnqueueReferences(issue, queue, known);
      CoveredGrows(before, waiting, issue.number, issue, known, queue);
      GatherStep(listed, k, before, waiting, known, queue);
    }
    AllGathered(listed, known, queue);
  }

  lemma NothingGathered(listed: seq<Issue>)
    ensures OrderOf(map[], []) && Covered(map[], []) && Faithful(map[]) && Gathered(listed, 0, map[], [])
  {
  }

  lemma AllGathered(listed: seq<Issue>, known: map<int, Issue>, queue: seq<int>)
    requires Gathered(listed, |listed|, known, queue)
    ensures forall fetch: int -> Fetch :: Grounded(listed, fetch, known, queue)
    ensures forall n :: n in known <==> Listed(listed, n)
  {
    assert listed[..|listed|] == listed;
    hide Grounded, Refers, HasNumber;
    forall fetch: int -> Fetch ensures Grounded(listed, fetch, known, queue) {
      GatheredIsGrounded(listed, fetch, known, queue);
    }
  }

  lemma GatheredIsGrounded(listed: seq<Issue>, fetch: int -> Fetch, known: map<int, Issue>, queue: seq<int>)
    requires Gathered(listed, |listed|, known, queue)
    ensures Grounded(listed, fetch, known, queue)
  {
    assert listed[..|listed|] == listed;
    forall n | n in known ensures Reachable(listed, fetch, n) { ListedReachable(listed, fetch, n); }
    forall r | r in queue ensures Reachable(listed, fetch, r) {
      var j :| 0 <= j < |listed| && Refers(listed[j], r);
      var n := listed[j].number;
      assert RefersTo(listed, fetch, n, r) && Listed(listed, n);
      ListedReachable(listed, fetch, n);
      ReachableStep(listed, fetch, n, r);
    }
    forall k | 0 <= k < |listed| ensures listed[k].number in known { assert HasNumber(listed, listed[k].number); }
    hide Reachable, Refers;
  }

  lemma QueueStaysReachable(listed: seq<Issue>, fetch: int -> Fetch, queue: seq<int>, issue: Issue, rest: seq<int>)
    requires |queue| > 0 && !Listed(listed, queue[0]) && fetch(queue[0]) == Found(issue)
    requires forall r :: r in queue ==> Reachable(listed, fetch, r)
    requires forall r :: r in rest ==> r in queue[1..] || Refers(issue, r)
    ensures forall r :: r in rest ==> Reachable(listed, fetch, r)
  {
    var n := queue[0];
    assert Reachable(listed, fetch, n);
    forall r | r in rest ensures Reachable(listed, fetch, r) {
      if r !in queue[1..] {
        assert RefersTo(listed, fetch, n, r);
        ReachableStep(listed, fetch, n, r);
      }
    }
  }

  /** A fetched issue joins what is known, its references join the queue. */
  lemma GroundedTakes(listed: seq<Issue>, fetch: int -> Fetch, known: map<int, Issue>, queue: seq<int>, issue: Issue,
      next: map<int, Issue>, rest: seq<int>)
    requires Grounded(listed, fetch, known, queue) && |queue| > 0 && queue[0] !in known
      && fetch(queue[0]) == Found(issue)
    requires next == known[queue[0] := issue] && queue[1..] <= rest
    requires forall r :: r in rest ==> r in queue[1..] || Refers(issue, r)
    ensures Grounded(listed, fetch, next, rest)
  {
    hide Reachable, Refers, RefersTo;
    var n := queue[0];
    assert n in queue && !Listed(listed, n);
    QueueStaysReachable(listed, fetch, queue, issue, rest);
    ListedStayCovered(listed, fetch, known, queue, next, rest);
    hide Listed;
    forall m | m in next ensures Reachable(listed, fetch, m) { assert m in known || m == n; }
    forall m | m in next && !Listed(listed, m) ensures fetch(m) == Found(next[m]) { assert m in known || m == n; }
  }

  lemma ListedStayCovered(listed: seq<Issue>, fetch: int -> Fetch, known: map<int, Issue>, queue: seq<int>,
      next: map<int, Issue>, rest: seq<int>)
    requires Grounded(listed, fetch, known, queue) && |queue| > 0 && queue[0] in next && queue[1..] <= rest
    requires forall k :: k in known ==> k in next
    ensures forall k, r :: 0 <= k < |listed| && Refers(listed[k], r) ==> r in next || r in rest
  {
    hide Reachable, Refers, Listed;
    forall k, r | 0 <= k < |listed| && Refers(listed[k], r) ensures r in next || r in rest {
      if r !in known {
        var i :| 0 <= i < |queue| && queue[i] == r;
        if i > 0 { assert queue[1..][i - 1] == rest[i - 1] == r; }
      }
    }
  }

  lemma GroundedPops(listed: seq<Issue>, fetch: int -> Fetch, known: map<int, Issue>, queue: seq<int>)
    requires Grounded(listed, fetch, known, queue) && |queue| > 0 && queue[0] in known
    ensures Grounded(listed, fetch, known, queue[1..])
  {
    hide Reachable, Refers, Listed;
  }

  lemma ReferenceIsKnown(listed: seq<Issue>, fetch: int -> Fetch, known: map<int, Issue>, n: int, r: int)
    requires Grounded(listed, fetch, known, []) && Covered(known, []) && n in known && RefersTo(listed, fetch, n, r)
    ensures r in known
  {
    hide Reachable, Refers, Listed;
    if !Listed(listed, n) {
      assert fetch(n) == Found(known[n]);
      if Refers(known[n], r) { CoveredAt(known, [], n, r); }
    }
  }

  lemma {:induction false} PathIsKnown(listed: seq<Issue>, fetch: int -> Fetch, known: map<int, Issue>, p: seq<int>,
      k: nat)
    requires Grounded(listed, fetch, known, []) && Covered(known, []) && IsPath(listed, fetch, p) && k < |p|
    ensures p[k] in known
  {
    hide Reachable, Refers, RefersTo, Covered;
    if k == 0 {
      var j :| 0 <= j < |listed| && listed[j].number == p[0];
    } else {
      PathIsKnown(listed, fetch, known, p, k - 1);
      assert RefersTo(listed, fetch, p[k - 1], p[k]);
      ReferenceIsKnown(listed, fetch, known, p[k - 1], p[k]);
    }
  }

  /** Once nothing is queued, exactly the reachable issues are known. */
  lemma KnownIsReachable(listed: seq<Issue>, fetch: int -> Fetch, known: map<int, Issue>)
    requires Grounded(listed, fetch, known, []) && Covered(known, [])
    ensures forall n :: n in known <==> Reachable(listed, fetch, n)
    ensures forall n :: n in known && !Listed(listed, n) ==> fetch(n) == Found(known[n])
    ensures AllAvailable(listed, fetch)
  {
    forall n | Reachable(listed, fetch, n) ensures n in known {
      var p :| IsPath(listed, fetch, p) && p[|p| - 1] == n;
      PathIsKnown(listed, fetch, known, p, |p| - 1);
    }
    hide Reachable, Covered;
  }

  lemma KnownAtMost(listed: seq<Issue>, fetch: int -> Fetch, known: map<int, Issue>, queue: seq<int>, limit: nat)
    requires Grounded(listed, fetch, known, queue) && AtMost(listed, fetch, limit)
    ensures |known| <= limit
  {
    var s :| Holds(listed, fetch, s) && |s| <= limit;
    hide Reachable;
    forall n | n in known.Keys ensures n in s { assert n in known; }
    Subset(known.Keys, s);
    assert |known| == |known.Keys|;
  }

  lemma CoveredGrows(before: map<int, Issue>, waiting: seq<int>, n: int, issue: Issue, known: map<int, Issue>,
      queue: seq<int>)
    requires Covered(before, waiting) && known == before[n := issue] && waiting <= queue
    requires forall r :: Refers(issue, r) ==> r in known || r in queue
    ensures Covered(known, queue)
  {
  }

  lemma CoveredPops(known: map<int, Issue>, queue: seq<int>)
    requires |queue| > 0 && queue[0] in known && Covered(known, queue)
    ensures Covered(known, queue[1..])
  {
  }

  lemma CoveredTakes(known: map<int, Issue>, queue: seq<int>, issue: Issue, next: map<int, Issue>, rest: seq<int>)
    requires |queue| > 0
      && queue[0] !in known
      && Covered(known, queue)
      && next == known[queue[0] := issue]
      && queue[1..] <= rest
    requires forall r :: Refers(issue, r) ==> r in next || r in rest
    ensures Covered(next, rest)
  {
    forall k, r | k in next && Refers(next[k], r) ensures r in next || r in rest {
      if k != queue[0] { assert k in known && Refers(known[k], r); }
    }
  }

  /** The work-list loop: every queued number not yet known is fetched once. It succeeds when every reachable
    * issue can be fetched and at most 200 are reachable; when it succeeds, exactly the reachable issues are
    * known. */
  method Crawl(ghost listed: seq<Issue>, known0: map<int, Issue>, order0: seq<int>, queue0: seq<int>,
      fetch: int -> Fetch)
      returns (ok: bool, known: map<int, Issue>, order: seq<int>)
    requires OrderOf(known0, order0) && Covered(known0, queue0) && Faithful(known0)
      && Grounded(listed, fetch, known0, queue0)
    ensures ok ==> OrderOf(known, order) && Covered(known, []) && Extends(known0, known)
    ensures ok && FaithfulFetch(fetch) ==> Faithful(known)
    ensures ok ==> forall n :: n in known <==> Reachable(listed, fetch, n)
    ensures ok ==> AllAvailable(listed, fetch)
    ensures ok ==> forall n :: n in known && !Listed(listed, n) ==> fetch(n) == Found(known[n])
    ensures ok ==> |known| <= SAFETY_LIMIT + 1 || forall n :: n in known ==> n in known0
    ensures AllAvailable(listed, fetch) && AtMost(listed, fetch, SAFETY_LIMIT) ==> ok
  {
    known, order := known0, order0;
    var queue := queue0;
    var visited: set<int> := {};
    assert Extends(known0, known);
    hide Grounded, Covered, OrderOf, Extends, AllAvailable, AtMost, Faithful, FaithfulFetch, Reachable, Refers, Listed;
    while |queue| > 0
      invariant OrderOf(known, order) && Covered(known, queue) && Extends(known0, known)
        && Grounded(listed, fetch, known, queue)
      invariant forall n :: n in visited ==> n in known
      invariant FaithfulFetch(fetch) ==> Faithful(known)
      invariant |known| <= SAFETY_LIMIT + 1 || forall n :: n in known ==> n in known0
      decreases if |known| <= SAFETY_LIMIT then SAFETY_LIMIT + 1 - |known| else 0, |queue|
    {
      if |known| > SAFETY_LIMIT {
        if AtMost(listed, fetch, SAFETY_LIMIT) { KnownAtMost(listed, fetch, known, queue, SAFETY_LIMIT); }
        return false, known, order;
      }
      var number := queue[0];
      if number in known || number in visited {
        CoveredPops(known, queue);
        GroundedPops(listed, fetch, known, queue);
        queue := queue[1..];
        continue;
      }
      visited := visited + {number};
      var answer := fetch(number);
      if answer.Unavailable? {
        QueuedMissing(listed, fetch, known, queue);
        return false, known, order;
      }
      var next := known[number := answer.issue];
      assert |next| == |known| + 1 by { assert next.Keys == known.Keys + {number}; }
      var rest := EnqueueReferences(answer.issue, queue[1..], next);
      CoveredTakes(known, queue, answer.issue, next, rest);
      GroundedTakes(listed, fetch, known, queue, answer.issue, next, rest);
      TakenKeepsOrder(known0, known, order, number, answer.issue, fetch);
      known, order, queue := next, order + [number], rest;
    }
    assert queue == [];
    KnownIsReachable(listed, fetch, known);
    ok := true;
  }

  lemma QueuedMissing(listed: seq<Issue>, fetch: int -> Fetch, known: map<int, Issue>, queue: seq<int>)
    requires Grounded(listed, fetch, known, queue) && |queue| > 0 && queue[0] !in known && fetch(queue[0]).Unavailable?
    ensures !AllAvailable(listed, fetch)
  {
    assert queue[0] in queue && Reachable(listed, fetch, queue[0]);
    assert !Listed(listed, queue[0]);
    hide Reachable;
  }

  lemma TakenKeepsOrder(known0: map<int, Issue>, known: map<int, Issue>, order: seq<int>, n: int, issue: Issue,
      fetch: int -> Fetch)
    requires OrderOf(known, order) && Extends(known0, known) && n !in known && fetch(n) == Found(issue)
    ensures OrderOf(known[n := issue], order + [n]) && Extends(known0, known[n := issue])
    ensures FaithfulFetch(fetch) && Faithful(known) ==> Faithful(known[n := issue])
  {
  }

  lemma ListedKept(known: map<int, Issue>, order: seq<int>, issues: seq<Issue>, n: int)
    requires OrderOf(known, order) && n in known && known[n].number == n
    requires forall x :: x in Values(known, order) <==> x in issues
    ensures HasNumber(issues, n)
  {
    assert n in order;
    var i :| 0 <= i < |order| && order[i] == n;
    assert Values(known, order)[i] in issues;
    var j :| 0 <= j < |issues| && issues[j] == known[n];
    assert issues[j].number == n;
  }

  lemma ReachedHasNumber(known: map<int, Issue>, order: seq<int>, issues: seq<Issue>, n: int)
    requires OrderOf(known, order) && Faithful(known) && forall x :: x in Values(known, order) <==> x in issues
    ensures HasNumber(issues, n) <==> n in known
  {
    if n in known { ListedKept(known, order, issues, n); }
    if HasNumber(issues, n) {
      var j :| 0 <= j < |issues| && issues[j].number == n;
      assert issues[j] in Values(known, order);
      var i :| 0 <= i < |order| && Values(known, order)[i] == issues[j];
      assert order[i] in known && known[order[i]] == issues[j] && known[order[i]].number == order[i];
    }
  }

  /** `listIssueGraph`: it ends on every graph, cyclic ones included. It returns when every reachable issue can
    * be fetched and at most 200 are reachable, and whenever it returns each of them could be fetched, and at
    * most 201 are there unless none had to be. When every fetch answers with the issue asked for, the result
    * then holds exactly the reachable issues, none twice, in ascending order, and is closed under parents and
    * sub-issues. */
  method ListIssueGraph(listed: seq<Issue>, fetch: int -> Fetch) returns (ok: bool, issues: seq<Issue>)
    ensures ok && FaithfulFetch(fetch) ==> Closed(issues) && DistinctNumbers(issues) && Ascending(issues)
    ensures ok && FaithfulFetch(fetch) ==> forall n :: HasNumber(issues, n) <==> Reachable(listed, fetch, n)
    ensures ok ==> AllAvailable(listed, fetch)
    ensures ok ==> |issues| <= SAFETY_LIMIT + 1 || forall n :: Reachable(listed, fetch, n) ==> Listed(listed, n)
    ensures AllAvailable(listed, fetch) && AtMost(listed, fetch, SAFETY_LIMIT) ==> ok
    ensures ok ==> forall k :: 0 <= k < |listed| ==> HasNumber(issues, listed[k].number)
  {
    var gathered, order0, queue := Gather(listed);
    var known, order;
    ok, known, order := Crawl(listed, gathered, order0, queue, fetch);
    if !ok { return false, []; }
    var values := Values(known, order);
    issues := SortIssues(values);
    hide Reachable, AllAvailable, AtMost, Grounded, SortIssues, Refers;
    SortAscends(values);
    SortPermutes(values);
    SameMembers(values, issues);
    forall k | 0 <= k < |listed| ensures HasNumber(issues, listed[k].number) {
      assert Listed(listed, listed[k].number);
      ListedKept(known, order, issues, listed[k].number);
    }
    if FaithfulFetch(fetch) {
      CoveredMeansClosed(known, order);
      ClosedPermutes(values, issues);
      DistinctPermutes(values, issues);
      forall n ensures HasNumber(issues, n) <==> Reachable(listed, fetch, n) {
        ReachedHasNumber(known, order, issues, n);
      }
    }
  }
}
