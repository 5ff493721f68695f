// Strict frontier selection over a closed issue graph.
module Eligibility {
  import opened Options
  import opened IssueGraph

  datatype Reason =
    | NotOpen | MissingReadyLabel | Assigned | Blocked | AlreadyClaimed
    | MapContainer | MapWaiting | NestedMap | AmbiguousParent | MissingChildSnapshot
  datatype Diagnostic = Diagnostic(issueNumber: int, reason: Reason)
  datatype Task = Task(issue: Issue, mapNumber: Option<int>, key: int)
  datatype Config = Config(readyLabel: string, claimed: set<int>)

  predicate IsMap(i: Issue) { i.subIssues != [] }

  function CommonFailure(i: Issue, c: Config): Option<Reason> {
    if !i.open then Some(NotOpen)
    else if c.readyLabel !in i.labels then Some(MissingReadyLabel)
    else if i.assignees != [] then Some(Assigned)
    else if exists k :: 0 <= k < |i.blockedBy| && i.blockedBy[k].open then Some(Blocked)
    else if i.number in c.claimed then Some(AlreadyClaimed)
    else None
  }

  // ----- specification -----

  /** The last snapshot with this number. */
  function Lookup(xs: seq<Issue>, n: int): Option<Issue> {
    if xs == [] then None
    else if xs[|xs| - 1].number == n then Some(xs[|xs| - 1])
    else Lookup(xs[..|xs| - 1], n)
  }

  /** How often the issue's children include n. */
  function Mentions(refs: seq<Ref>, n: int): nat {
    if refs == [] then 0 else Mentions(refs[..|refs| - 1], n) + (if refs[|refs| - 1].number == n then 1 else 0)
  }

  function Repeat(n: int, times: nat): (r: seq<int>)
    ensures |r| == times && forall i :: 0 <= i < times ==> r[i] == n
  {
    seq(times, i => n)
  }

  /** The Maps that list n as a child, once for every mention. */
  function Owners(xs: seq<Issue>, n: int): seq<int> {
    if xs == [] then []
    else Owners(xs[..|xs| - 1], n) + Repeat(xs[|xs| - 1].number, Mentions(xs[|xs| - 1].subIssues, n))
  }

  function FirstOpen(refs: seq<Ref>): (r: Option<Ref>)
    ensures r.Some? ==> r.value in refs && r.value.open
    ensures r.None? ==> forall i :: 0 <= i < |refs| ==> !refs[i].open
  {
    if refs == [] then None else if refs[0].open then Some(refs[0]) else FirstOpen(refs[1..])
  }

  datatype Verdict = Verdict(task: Option<Task>, diagnostics: seq<Diagnostic>)

  /** What a Map contributes: its first OPEN child, if that child is executable and the Map alone owns it. */
  function MapVerdict(lookup: int -> Option<Issue>, owners: int -> seq<int>, c: Config, m: Issue): Verdict {
    var container := Diagnostic(m.number, MapContainer);
    if CommonFailure(m, c).Some? then Verdict(None, [container, Diagnostic(m.number, CommonFailure(m, c).value)])
    else if m.parent.Some? then Verdict(None, [container, Diagnostic(m.number, NestedMap)])
    else
      var ref := FirstOpen(m.subIssues);
      if ref.None? then Verdict(None, [container, Diagnostic(m.number, MapWaiting)])
      else
        var child := lookup(ref.value.number);
        if child.None? then Verdict(None, [container, Diagnostic(m.number, MissingChildSnapshot)])
        else
          var f := child.value;
          if owners(f.number) != [m.number] || f.parent != Some(m.number)
              then Verdict(None, [container, Diagnostic(f.number, AmbiguousParent)])
          else if IsMap(f) then Verdict(None, [container, Diagnostic(f.number, NestedMap)])
          else if CommonFailure(f, c).Some? then Verdict(None, [container, Diagnostic(f.number, MapWaiting)])
          else Verdict(Some(Task(f, Some(m.number), m.number)), [container])
  }

  /** What an issue outside every Map contributes. */
  function SoloVerdict(owners: int -> seq<int>, c: Config, i: Issue): Verdict {
    if i.parent.Some? || owners(i.number) != [] then Verdict(None, [])
    else if CommonFailure(i, c).Some? then Verdict(None, [Diagnostic(i.number, CommonFailure(i, c).value)])
    else Verdict(Some(Task(i, None, i.number)), [])
  }

  function IssueVerdict(lookup: int -> Option<Issue>, owners: int -> seq<int>, c: Config, i: Issue): Verdict {
    if IsMap(i) then MapVerdict(lookup, owners, c, i) else SoloVerdict(owners, c, i)
  }

  function Tasks(lookup: int -> Option<Issue>, owners: int -> seq<int>, c: Config, xs: seq<Issue>,
      maps: bool): seq<Task> {
    if xs == [] then []
    else
      var x := xs[|xs| - 1];
      var rest := Tasks(lookup, owners, c, xs[..|xs| - 1], maps);
      if IsMap(x) == maps && IssueVerdict(lookup, owners, c, x).task.Some?
      then rest + [IssueVerdict(lookup, owners, c, x).task.value] else rest
  }

  predicate Before(a: Task, b: Task) {
    a.key < b.key || (a.key == b.key && a.issue.number < b.issue.number)
  }

  function InsertTask(x: Task, xs: seq<Task>): seq<Task> {
    if xs == [] || Before(x, xs[0]) then [x] + xs else [xs[0]] + InsertTask(x, xs[1..])
  }

  function SortTasks(xs: seq<Task>): seq<Task> {
    if xs == [] then [] else InsertTask(xs[|xs| - 1], SortTasks(xs[..|xs| - 1]))
  }

  function EligibleTasks(xs: seq<Issue>, c: Config): seq<Task> {
    var lookup := n => Lookup(xs, n);
    var owners := n => Owners(xs, n);
    SortTasks(Tasks(lookup, owners, c, SortIssues(xs), true) + Tasks(lookup, owners, c, SortIssues(xs), false))
  }

  function Selection(tasks: seq<Task>): Option<Task> {
    if tasks == [] then None else Some(tasks[0])
  }

  function Notes(lookup: int -> Option<Issue>, owners: int -> seq<int>, c: Config, xs: seq<Issue>,
      maps: bool): seq<Diagnostic> {
    if xs == [] then []
    else
      var x := xs[|xs| - 1];
      Notes(lookup, owners, c, xs[..|xs| - 1], maps)
      + (if IsMap(x) == maps then IssueVerdict(lookup, owners, c, x).diagnostics else [])
  }

  function AllNotes(xs: seq<Issue>, c: Config): seq<Diagnostic> {
    var lookup := n => Lookup(xs, n);
    var owners := n => Owners(xs, n);
    Notes(lookup, owners, c, SortIssues(xs), true) + Notes(lookup, owners, c, SortIssues(xs), false)
  }

  // ----- the loops -----

  ghost predicate Indexes(byNumber: map<int, Issue>, xs: seq<Issue>) {
    forall n: int :: Lookup(xs, n) == if n in byNumber then Some(byNumber[n]) else None
  }

  method IndexByNumber(xs: seq<Issue>) returns (byNumber: map<int, Issue>)
    ensures Indexes(byNumber, xs)
  {
    byNumber := map[];
    for k := 0 to |xs|
      invariant Indexes(byNumber, xs[..k])
    {
      assert xs[..k + 1][..k] == xs[..k];
      byNumber := byNumber[xs[k].number := xs[k]];
    }
    assert xs[..|xs|] == xs;
  }

  function OwnersIn(childOwners: map<int, seq<int>>, n: int): seq<int> {
    if n in childOwners then childOwners[n] else []
  }

  ghost predicate OwnersMatch(childOwners: map<int, seq<int>>, xs: seq<Issue>) {
    forall n: int :: OwnersIn(childOwners, n) == Owners(xs, n) && (n in childOwners ==> childOwners[n] != [])
  }

  /** One more mention adds one more owner at the end. */
  lemma OneMoreOwner(was: map<int, seq<int>>, now: map<int, seq<int>>, before: map<int, seq<int>>, x: Issue, j: nat,
      n: int)
    requires j < |x.subIssues|
      && now == was[x.subIssues[j].number := OwnersIn(was, x.subIssues[j].number) + [x.number]]
    requires OwnersIn(was, n) == OwnersIn(before, n) + Repeat(x.number, Mentions(x.subIssues[..j], n))
    ensures OwnersIn(now, n) == OwnersIn(before, n) + Repeat(x.number, Mentions(x.subIssues[..j + 1], n))
  {
    assert x.subIssues[..j + 1][..j] == x.subIssues[..j];
    var times := Mentions(x.subIssues[..j], n);
    assert Repeat(x.number, times + 1) == Repeat(x.number, times) + [x.number];
    if n == x.subIssues[j].number {
      assert OwnersIn(now, n) == OwnersIn(was, n) + [x.number];
    } else {
      assert OwnersIn(now, n) == OwnersIn(was, n);
    }
  }

  method AddChildren(before: map<int, seq<int>>, x: Issue) returns (childOwners: map<int, seq<int>>)
    requires forall n :: n in before ==> before[n] != []
    ensures forall n: int ::
      OwnersIn(childOwners, n) == OwnersIn(before, n) + Repeat(x.number, Mentions(x.subIssues, n))
    ensures forall n :: n in childOwners ==> childOwners[n] != []
  {
    childOwners := before;
    for j := 0 to |x.subIssues|
      invariant forall n: int ::
        OwnersIn(childOwners, n) == OwnersIn(before, n) + Repeat(x.number, Mentions(x.subIssues[..j], n))
      invariant forall n :: n in childOwners ==> childOwners[n] != []
    {
      ghost var was := childOwners;
      childOwners := childOwners[x.subIssues[j].number := OwnersIn(childOwners, x.subIssues[j].number) + [x.number]];
      forall n: int ensures OwnersIn(childOwners, n) == OwnersIn(before, n)
          + Repeat(x.number, Mentions(x.subIssues[..j + 1], n)) {
        OneMoreOwner(was, childOwners, before, x, j, n);
      }
    }
    assert x.subIssues[..|x.subIssues|] == x.subIssues;
  }

  method CollectOwners(xs: seq<Issue>) returns (childOwners: map<int, seq<int>>)
    ensures OwnersMatch(childOwners, xs)
  {
    childOwners := map[];
    for k := 0 to |xs|
      invariant OwnersMatch(childOwners, xs[..k])
    {
      assert xs[..k + 1][..k] == xs[..k];
      childOwners := AddChildren(childOwners, xs[k]);
    }
    assert xs[..|xs|] == xs;
  }

  /** The checks on one Map, in order. */
  method CheckMap(m: Issue, c: Config, byNumber: map<int, Issue>, childOwners: map<int, seq<int>>, xs: seq<Issue>)
      returns (task: Option<Task>, notes: seq<Diagnostic>)
    requires Indexes(byNumber, xs) && OwnersMatch(childOwners, xs)
    ensures Verdict(task, notes) == MapVerdict(n => Lookup(xs, n), n => Owners(xs, n), c, m)
  {
    task, notes := None, [Diagnostic(m.number, MapContainer)];
    var mapFailure := CommonFailure(m, c);
    if mapFailure.Some? { return None, notes + [Diagnostic(m.number, mapFailure.value)]; }
    if m.parent.Some? { return None, notes + [Diagnostic(m.number, NestedMap)]; }
    var ref := FirstOpen(m.subIssues);
    if ref.None? { return None, notes + [Diagnostic(m.number, MapWaiting)]; }
    if ref.value.number !in byNumber { return None, notes + [Diagnostic(m.number, MissingChildSnapshot)]; }
    var frontier := byNumber[ref.value.number];
    var owners := OwnersIn(childOwners, frontier.number);
    if |owners| != 1 || owners[0] != m.number || frontier.parent != Some(m.number) {
      return None, notes + [Diagnostic(frontier.number, AmbiguousParent)];
    }
    if frontier.subIssues != [] { return None, notes + [Diagnostic(frontier.number, NestedMap)]; }
    var failure := CommonFailure(frontier, c);
    if failure.Some? { return None, notes + [Diagnostic(frontier.number, MapWaiting)]; }
    return Some(Task(frontier, Some(m.number), m.number)), notes;
  }

  method CollectMaps(sorted: seq<Issue>, c: Config, byNumber: map<int, Issue>, childOwners: map<int, seq<int>>,
      xs: seq<Issue>)
      returns (tasks: seq<Task>, notes: seq<Diagnostic>)
    requires Indexes(byNumber, xs) && OwnersMatch(childOwners, xs)
    ensures tasks == Tasks(n => Lookup(xs, n), n => Owners(xs, n), c, sorted, true)
    ensures notes == Notes(n => Lookup(xs, n), n => Owners(xs, n), c, sorted, true)
  {
    hide MapVerdict, SoloVerdict, Indexes, OwnersMatch, Lookup, Owners;
    ghost var lookup, owners := n => Lookup(xs, n), n => Owners(xs, n);
    tasks, notes := [], [];
    for k := 0 to |sorted|
      invariant tasks == Tasks(lookup, owners, c, sorted[..k], true)
          && notes == Notes(lookup, owners, c, sorted[..k], true)
    {
      assert sorted[..k + 1][..k] == sorted[..k];
      if sorted[k].subIssues == [] { continue; }
      var task, more := CheckMap(sorted[k], c, byNumber, childOwners, xs);
      assert IssueVerdict(lookup, owners, c, sorted[k]) == Verdict(task, more);
      notes := notes + more;
      if task.Some? { tasks := tasks + [task.value]; }
    }
    assert sorted[..|sorted|] == sorted;
  }

  method CollectSolos(sorted: seq<Issue>, c: Config, childOwners: map<int, seq<int>>, xs: seq<Issue>)
      returns (tasks: seq<Task>, notes: seq<Diagnostic>)
    requires OwnersMatch(childOwners, xs)
    ensures tasks == Tasks(n => Lookup(xs, n), n => Owners(xs, n), c, sorted, false)
    ensures notes == Notes(n => Lookup(xs, n), n => Owners(xs, n), c, sorted, false)
  {
    hide MapVerdict, CommonFailure, Lookup, Owners;
    ghost var lookup, owners := n => Lookup(xs, n), n => Owners(xs, n);
    tasks, notes := [], [];
    for k := 0 to |sorted|
      invariant tasks == Tasks(lookup, owners, c, sorted[..k], false)
          && notes == Notes(lookup, owners, c, sorted[..k], false)
    {
      assert sorted[..k + 1][..k] == sorted[..k];
      var issue := sorted[k];
      assert OwnersIn(childOwners, issue.number) == owners(issue.number);
      if issue.subIssues != [] || issue.parent.Some? || issue.number in childOwners { continue; }
      var failure := CommonFailure(issue, c);
      if failure.Some? {
        notes := notes + [Diagnostic(issue.number, failure.value)];
        continue;
      }
      tasks := tasks + [Task(issue, None, issue.number)];
    }
    assert sorted[..|sorted|] == sorted;
  }

  method SelectNextTask(snapshots: seq<Issue>, c: Config) returns (selected: Option<Task>, eligible: seq<Task>,
      diagnostics: seq<Diagnostic>)
    ensures eligible == EligibleTasks(snapshots, c)
      && selected == Selection(eligible)
      && diagnostics == AllNotes(snapshots, c)
  {
    hide Tasks, Notes, SortTasks, SortIssues, Indexes, OwnersMatch;
    var byNumber := IndexByNumber(snapshots);
    var childOwners := CollectOwners(snapshots);
    var sorted := SortIssues(snapshots);
    var fromMaps, mapNotes := CollectMaps(sorted, c, byNumber, childOwners, snapshots);
    var solos, soloNotes := CollectSolos(sorted, c, childOwners, snapshots);
    eligible, diagnostics := SortTasks(fromMaps + solos), mapNotes + soloNotes;
    selected := if eligible == [] then None else Some(eligible[0]);
  }

  // ----- independence of the input order -----

  lemma {:induction false} LookupIs(xs: seq<Issue>, n: int)
    ensures Lookup(xs, n).Some? ==> Lookup(xs, n).value in xs && Lookup(xs, n).value.number == n
    ensures HasNumber(xs, n) <==> Lookup(xs, n).Some?
  {
    if xs != [] {
      LookupIs(xs[..|xs| - 1], n);
      if xs[|xs| - 1].number != n && HasNumber(xs, n) {
        var j :| 0 <= j < |xs| && xs[j].number == n;
        assert xs[..|xs| - 1][j].number == n;
      }
      if Lookup(xs[..|xs| - 1], n).Some? && xs[|xs| - 1].number != n {
        var j :| 0 <= j < |xs[..|xs| - 1]| && xs[..|xs| - 1][j].number == n;
        assert xs[j].number == n;
      }
    }
  }

  lemma HasNumberPermutes(xs: seq<Issue>, ys: seq<Issue>, n: int)
    requires multiset(xs) == multiset(ys) && HasNumber(xs, n)
    ensures HasNumber(ys, n)
  {
    SameMembers(xs, ys);
    var j :| 0 <= j < |xs| && xs[j].number == n;
    assert xs[j] in ys;
    var k :| 0 <= k < |ys| && ys[k] == xs[j];
    assert ys[k].number == n;
  }

  lemma OnlyOne(xs: seq<Issue>, a: Issue, b: Issue)
    requires DistinctNumbers(xs) && a in xs && b in xs && a.number == b.number
    ensures a == b
  {
    var i :| 0 <= i < |xs| && xs[i] == a;
    var j :| 0 <= j < |xs| && xs[j] == b;
    assert i == j;
  }

  lemma SameLookup(xs: seq<Issue>, ys: seq<Issue>, n: int)
    requires DistinctNumbers(xs) && multiset(xs) == multiset(ys)
    ensures Lookup(xs, n) == Lookup(ys, n)
  {
    SameMembers(xs, ys);
    LookupIs(xs, n);
    LookupIs(ys, n);
    if HasNumber(xs, n) { HasNumberPermutes(xs, ys, n); }
    if HasNumber(ys, n) {
      HasNumberPermutes(ys, xs, n);
      OnlyOne(xs, Lookup(xs, n).value, Lookup(ys, n).value);
    }
  }

  lemma OwnersLast(front: seq<Issue>, x: Issue, n: int)
    ensures multiset(Owners(front + [x], n)) == multiset(Owners(front, n))
        + multiset(Repeat(x.number, Mentions(x.subIssues, n)))
  {
    assert (front + [x])[..|front|] == front;
  }

  lemma {:induction false} OwnersRemove(xs: seq<Issue>, i: nat, n: int)
    requires i < |xs|
    ensures multiset(Owners(xs, n)) == multiset(Owners(xs[..i] + xs[i + 1..], n))
        + multiset(Repeat(xs[i].number, Mentions(xs[i].subIssues, n)))
    decreases |xs|
  {
    hide Owners, Repeat, Mentions;
    var last := |xs| - 1;
    var front, less := xs[..last], xs[..i] + xs[i + 1..];
    assert xs == front + [xs[last]];
    OwnersLast(front, xs[last], n);
    if i == last {
      assert less == front;
    } else {
      OwnersRemove(front, i, n);
      assert less == (front[..i] + front[i + 1..]) + [xs[last]];
      OwnersLast(front[..i] + front[i + 1..], xs[last], n);
    }
  }

  lemma {:induction false} SameOwners(xs: seq<Issue>, ys: seq<Issue>, n: int)
    requires multiset(xs) == multiset(ys)
    ensures multiset(Owners(xs, n)) == multiset(Owners(ys, n))
    decreases |xs|
  {
    SameMembers(xs, ys);
    if xs != [] {
      var x := xs[|xs| - 1];
      assert x in ys;
      var i :| 0 <= i < |ys| && ys[i] == x;
      var less := ys[..i] + ys[i + 1..];
      assert ys == ys[..i] + [x] + ys[i + 1..];
      assert xs == xs[..|xs| - 1] + [x];
      assert multiset(less) == multiset(ys) - multiset{x};
      assert multiset(xs[..|xs| - 1]) == multiset(xs) - multiset{x};
      SameOwners(xs[..|xs| - 1], less, n);
      OwnersRemove(ys, i, n);
    }
  }

  lemma MultisetDecides(a: seq<int>, b: seq<int>, m: int)
    requires multiset(a) == multiset(b)
    ensures (a == [m] <==> b == [m]) && (a == [] <==> b == [])
  {
    assert |a| == |multiset(a)| == |multiset(b)| == |b|;
    if |a| == 1 { assert a[0] in multiset(b); }
  }

  lemma SameMapVerdict(xs: seq<Issue>, ys: seq<Issue>, c: Config, m: Issue)
    requires DistinctNumbers(xs) && multiset(xs) == multiset(ys)
    ensures MapVerdict(n => Lookup(xs, n), n => Owners(xs, n), c, m) == MapVerdict(n => Lookup(ys, n),
        n => Owners(ys, n), c, m)
  {
    var ref := FirstOpen(m.subIssues);
    if ref.Some? {
      SameLookup(xs, ys, ref.value.number);
      var child := Lookup(xs, ref.value.number);
      if child.Some? {
        SameOwners(xs, ys, child.value.number);
        MultisetDecides(Owners(xs, child.value.number), Owners(ys, child.value.number), m.number);
      }
    }
    hide CommonFailure, Lookup, Owners, FirstOpen, DistinctNumbers;
  }

  lemma SameVerdict(xs: seq<Issue>, ys: seq<Issue>, c: Config, i: Issue)
    requires DistinctNumbers(xs) && multiset(xs) == multiset(ys)
    ensures IssueVerdict(n => Lookup(xs, n), n => Owners(xs, n), c, i) == IssueVerdict(n => Lookup(ys, n),
        n => Owners(ys, n), c, i)
  {
    SameMapVerdict(xs, ys, c, i);
    SameOwners(xs, ys, i.number);
    MultisetDecides(Owners(xs, i.number), Owners(ys, i.number), i.number);
    hide MapVerdict, CommonFailure, Lookup, Owners, DistinctNumbers;
  }

  lemma {:induction false} SameTasks(xs: seq<Issue>, ys: seq<Issue>, c: Config, sorted: seq<Issue>, maps: bool)
    requires DistinctNumbers(xs) && multiset(xs) == multiset(ys)
    ensures Tasks(n => Lookup(xs, n), n => Owners(xs, n), c, sorted, maps) == Tasks(n => Lookup(ys, n),
        n => Owners(ys, n), c, sorted, maps)
    decreases |sorted|
  {
    if sorted != [] {
      SameTasks(xs, ys, c, sorted[..|sorted| - 1], maps);
      SameVerdict(xs, ys, c, sorted[|sorted| - 1]);
      hide IssueVerdict;
    }
  }

  /** Any order of the same snapshots, no number twice, gives the same eligible list and the same selection. */
  lemma SelectionIgnoresOrder(xs: seq<Issue>, ys: seq<Issue>, c: Config)
    requires DistinctNumbers(xs) && multiset(xs) == multiset(ys)
    ensures EligibleTasks(xs, c) == EligibleTasks(ys, c)
      && Selection(EligibleTasks(xs, c)) == Selection(EligibleTasks(ys, c))
  {
    SortAscends(xs);
    SortAscends(ys);
    SortPermutes(xs);
    SortPermutes(ys);
    DistinctPermutes(xs, SortIssues(xs));
    AscendingUnique(SortIssues(xs), SortIssues(ys));
    SameTasks(xs, ys, c, SortIssues(xs), true);
    SameTasks(xs, ys, c, SortIssues(xs), false);
    hide Tasks, SortTasks, SortIssues;
  }

  // ----- what is eligible -----

  lemma {:induction false} InsertTaskPermutes(x: Task, xs: seq<Task>)
    ensures multiset(InsertTask(x, xs)) == multiset(xs) + multiset{x}
  {
    if xs != [] && !Before(x, xs[0]) {
      InsertTaskPermutes(x, xs[1..]);
      assert xs == [xs[0]] + xs[1..];
    }
  }

  lemma {:induction false} SortTasksPermutes(xs: seq<Task>)
    ensures multiset(SortTasks(xs)) == multiset(xs)
  {
    if xs != [] {
      SortTasksPermutes(xs[..|xs| - 1]);
      InsertTaskPermutes(xs[|xs| - 1], SortTasks(xs[..|xs| - 1]));
      assert xs == xs[..|xs| - 1] + [xs[|xs| - 1]];
    }
  }

  /** Ordered by key, then by issue number. */
  predicate Ordered(xs: seq<Task>) {
    forall i, j :: 0 <= i < j < |xs| ==> !Before(xs[j], xs[i])
  }

  lemma {:induction false} InsertTaskOrders(x: Task, xs: seq<Task>)
    requires Ordered(xs)
    ensures Ordered(InsertTask(x, xs)) && InsertTask(x, xs) != []
    ensures InsertTask(x, xs)[0] == if xs == [] || Before(x, xs[0]) then x else xs[0]
  {
    if xs != [] && !Before(x, xs[0]) {
      InsertTaskOrders(x, xs[1..]);
      var rest := InsertTask(x, xs[1..]);
      assert InsertTask(x, xs) == [xs[0]] + rest;
      assert !Before(rest[0], xs[0]) by { if |xs| > 1 { assert !Before(xs[1..][0], xs[0]); } }
    }
  }

  lemma {:induction false} SortTasksOrders(xs: seq<Task>)
    ensures Ordered(SortTasks(xs))
  {
    if xs != [] {
      SortTasksOrders(xs[..|xs| - 1]);
      InsertTaskOrders(xs[|xs| - 1], SortTasks(xs[..|xs| - 1]));
    }
  }

  /** Every task comes from one issue of the right kind, whose number is its key. */
  predicate ComesFrom(lookup: int -> Option<Issue>, owners: int -> seq<int>, c: Config, xs: seq<Issue>, maps: bool,
      t: Task) {
    exists i :: 0 <= i < |xs| && IsMap(xs[i]) == maps && IssueVerdict(lookup, owners, c, xs[i]).task == Some(t)
  }

  lemma {:induction false} TasksComeFrom(lookup: int -> Option<Issue>, owners: int -> seq<int>, c: Config,
      xs: seq<Issue>, maps: bool)
    ensures forall t :: t in Tasks(lookup, owners, c, xs, maps) ==> ComesFrom(lookup, owners, c, xs, maps, t)
  {
    if xs != [] {
      var n := |xs| - 1;
      TasksComeFrom(lookup, owners, c, xs[..n], maps);
      forall t | t in Tasks(lookup, owners, c, xs, maps) ensures ComesFrom(lookup, owners, c, xs, maps, t) {
        if t in Tasks(lookup, owners, c, xs[..n], maps) {
          var i :| 0 <= i < n && IsMap(xs[..n][i]) == maps
              && IssueVerdict(lookup, owners, c, xs[..n][i]).task == Some(t);
          assert xs[..n][i] == xs[i];
        } else {
          assert IsMap(xs[n]) == maps && IssueVerdict(lookup, owners, c, xs[n]).task == Some(t);
        }
        hide IssueVerdict;
      }
    }
  }

  lemma VerdictKey(lookup: int -> Option<Issue>, owners: int -> seq<int>, c: Config, i: Issue)
    requires IssueVerdict(lookup, owners, c, i).task.Some?
    ensures IssueVerdict(lookup, owners, c, i).task.value.key == i.number
  {
  }

  predicate KeysDiffer(ts: seq<Task>) {
    forall i, j :: 0 <= i < j < |ts| ==> ts[i].key != ts[j].key
  }

  lemma {:induction false} TaskKeysDiffer(lookup: int -> Option<Issue>, owners: int -> seq<int>, c: Config,
      xs: seq<Issue>, maps: bool)
    requires DistinctNumbers(xs)
    ensures KeysDiffer(Tasks(lookup, owners, c, xs, maps))
  {
    if xs != [] {
      var n := |xs| - 1;
      var front := Tasks(lookup, owners, c, xs[..n], maps);
      TaskKeysDiffer(lookup, owners, c, xs[..n], maps);
      TasksComeFrom(lookup, owners, c, xs[..n], maps);
      forall t | t in front ensures t.key != xs[n].number {
        var i :| 0 <= i < n && IsMap(xs[..n][i]) == maps && IssueVerdict(lookup, owners, c, xs[..n][i]).task == Some(t);
        VerdictKey(lookup, owners, c, xs[i]);
      }
      if IssueVerdict(lookup, owners, c, xs[n]).task.Some? { VerdictKey(lookup, owners, c, xs[n]); }
      hide IssueVerdict;
    }
  }

  /** What eligibility means for one task: an executable issue of the input that is no Map; a Map's task is the
    * first OPEN child of that Map, which is active itself, with that Map as its parent and sole owner; any
    * other has no parent and no owner. */
  ghost predicate Deserves(xs: seq<Issue>, c: Config, t: Task) {
    && t.issue in xs && t.issue.subIssues == [] && Executable(t.issue, c)
    && (if t.mapNumber.Some?
        then SoleOwner(xs, t.mapNumber.value, t.issue.number) && t.issue.parent == t.mapNumber
             && t.key == t.mapNumber.value && FrontierOf(xs, c, t.mapNumber.value, t.issue.number)
        else NoOwner(xs, t.issue.number) && t.issue.parent.None? && t.key == t.issue.number)
  }

  /** Open, labelled, unassigned, with no open blocker, and not claimed. */
  predicate Executable(i: Issue, c: Config) {
    && i.open && c.readyLabel in i.labels && |i.assignees| == 0
    && (forall k :: 0 <= k < |i.blockedBy| ==> !i.blockedBy[k].open) && i.number !in c.claimed
  }

  /** The first reason against an issue, in the order of the checks. */
  ghost predicate FirstReason(i: Issue, c: Config, r: Reason) {
    var blocked := exists k :: 0 <= k < |i.blockedBy| && i.blockedBy[k].open;
    match r
    case NotOpen => !i.open
    case MissingReadyLabel => i.open && c.readyLabel !in i.labels
    case Assigned => i.open && c.readyLabel in i.labels && |i.assignees| > 0
    case Blocked => i.open && c.readyLabel in i.labels && |i.assignees| == 0 && blocked
    case AlreadyClaimed =>
      i.open && c.readyLabel in i.labels && |i.assignees| == 0 && !blocked && i.number in c.claimed
    case _ => false
  }

  lemma CommonFailureExactly(i: Issue, c: Config)
    ensures CommonFailure(i, c).None? <==> Executable(i, c)
    ensures forall r :: CommonFailure(i, c) == Some(r) <==> FirstReason(i, c, r)
  {
  }

  /** The k-th reference is to n. */
  predicate RefAt(refs: seq<Ref>, n: int, k: int) {
    0 <= k < |refs| && refs[k].number == n
  }

  /** No issue lists n as a child. */
  ghost predicate NoOwner(xs: seq<Issue>, n: int) {
    forall i, k :: 0 <= i < |xs| ==> !RefAt(xs[i].subIssues, n, k)
  }

  /** Exactly one issue lists n as a child, once, and it is m. */
  ghost predicate SoleOwner(xs: seq<Issue>, m: int, n: int) {
    exists i :: OwnsAlone(xs, m, n, i)
  }

  ghost predicate OwnsAlone(xs: seq<Issue>, m: int, n: int, i: int) {
    && 0 <= i < |xs| && xs[i].number == m && OneRef(xs[i].subIssues, n)
    && forall j, k :: 0 <= j < |xs| && j != i ==> !RefAt(xs[j].subIssues, n, k)
  }

  ghost predicate OneRef(refs: seq<Ref>, n: int) {
    exists k :: OnlyRefAt(refs, n, k)
  }

  ghost predicate OnlyRefAt(refs: seq<Ref>, n: int, k: int) {
    RefAt(refs, n, k) && forall l :: RefAt(refs, n, l) ==> l == k
  }

  lemma {:induction false} MentionsExactly(refs: seq<Ref>, n: int)
    ensures Mentions(refs, n) == 0 <==> forall k :: !RefAt(refs, n, k)
    ensures Mentions(refs, n) == 1 <==> OneRef(refs, n)
  {
    if refs != [] {
      var e := |refs| - 1;
      var front := refs[..e];
      MentionsExactly(front, n);
      assert !RefAt(front, n, e) && (RefAt(refs, n, e) <==> refs[e].number == n);
      assert forall k :: k != e ==> (RefAt(refs, n, k) <==> RefAt(front, n, k));
      hide RefAt;
      if refs[e].number == n {
        if Mentions(front, n) == 0 { assert OnlyRefAt(refs, n, e); }
      } else {
        assert forall k :: OnlyRefAt(refs, n, k) <==> OnlyRefAt(front, n, k);
      }
      hide OnlyRefAt;
    }
  }

  lemma SoleOwnerStep(front: seq<Issue>, x: Issue, m: int, n: int)
    ensures SoleOwner(front + [x], m, n) <==>
      || (SoleOwner(front, m, n) && forall k :: !RefAt(x.subIssues, n, k))
      || (NoOwner(front, n) && OneRef(x.subIssues, n) && x.number == m)
  {
    var xs := front + [x];
    hide RefAt;
    if i :| OwnsAlone(xs, m, n, i) {
      if i < |front| {
        assert forall j :: 0 <= j < |front| ==> xs[j] == front[j];
        assert xs[|front|] == x;
        assert OwnsAlone(front, m, n, i);
      } else {
        assert forall j :: 0 <= j < |front| ==> xs[j] == front[j];
      }
    }
    if SoleOwner(front, m, n) && forall k :: !RefAt(x.subIssues, n, k) {
      var i :| OwnsAlone(front, m, n, i);
      assert OwnsAlone(xs, m, n, i);
    }
    if NoOwner(front, n) && OneRef(x.subIssues, n) && x.number == m {
      assert OwnsAlone(xs, m, n, |front|);
    }
  }

  lemma {:induction false} OwnersExactly(xs: seq<Issue>, n: int)
    ensures Owners(xs, n) == [] <==> NoOwner(xs, n)
    ensures forall m :: Owners(xs, n) == [m] <==> SoleOwner(xs, m, n)
  {
    if xs == [] {
      assert forall m :: !SoleOwner(xs, m, n);
    } else {
      var front, x := xs[..|xs| - 1], xs[|xs| - 1];
      assert xs == front + [x];
      OwnersExactly(front, n);
      MentionsExactly(x.subIssues, n);
      assert NoOwner(xs, n) <==> NoOwner(front, n) && forall k :: !RefAt(x.subIssues, n, k) by {
        assert forall j :: 0 <= j < |front| ==> xs[j] == front[j];
        hide RefAt;
      }
      hide Mentions, SoleOwner, NoOwner, OneRef, RefAt;
      var more := Repeat(x.number, Mentions(x.subIssues, n));
      assert Owners(xs, n) == Owners(front, n) + more;
      hide Owners;
      forall m ensures Owners(xs, n) == [m] <==> SoleOwner(xs, m, n) {
        SoleOwnerStep(front, x, m, n);
        Singleton(Owners(front, n), more, m);
        assert |more| == 1 ==> more == [more[0]] && more[0] == x.number;
      }
    }
  }

  lemma Singleton(a: seq<int>, b: seq<int>, m: int)
    ensures a + b == [m] <==> (a == [m] && b == []) || (a == [] && b == [m])
  {
    if a + b == [m] { assert |a| + |b| == 1 && (a + b)[0] == m; }
  }

  ghost predicate FrontierOf(xs: seq<Issue>, c: Config, m: int, n: int) {
    exists i :: 0 <= i < |xs| && xs[i].number == m && IsFrontier(xs[i], c, n)
  }

  /** An active Map, under no other, whose first OPEN child is n. */
  ghost predicate IsFrontier(m: Issue, c: Config, n: int) {
    m.parent.None? && Executable(m, c) && exists k: nat :: FirstOpenAt(m.subIssues, k) && m.subIssues[k].number == n
  }

  /** The k-th reference is OPEN and none before it is. */
  predicate FirstOpenAt(refs: seq<Ref>, k: nat) {
    k < |refs| && refs[k].open && forall j :: 0 <= j < k ==> !refs[j].open
  }

  lemma {:induction false} FirstOpenExactly(refs: seq<Ref>)
    ensures forall k: nat :: FirstOpenAt(refs, k) ==> FirstOpen(refs) == Some(refs[k])
    ensures FirstOpen(refs).Some? ==> exists k: nat :: FirstOpenAt(refs, k) && refs[k] == FirstOpen(refs).value
  {
    if refs != [] {
      if refs[0].open {
        assert FirstOpenAt(refs, 0);
      } else {
        FirstOpenExactly(refs[1..]);
        forall k: nat | FirstOpenAt(refs, k) ensures FirstOpen(refs) == Some(refs[k]) {
          assert FirstOpenAt(refs[1..], k - 1);
        }
        if FirstOpen(refs).Some? {
          var k: nat :| FirstOpenAt(refs[1..], k) && refs[1..][k] == FirstOpen(refs).value;
          assert FirstOpenAt(refs, k + 1);
        }
      }
    }
  }

  lemma VerdictDeserves(xs: seq<Issue>, c: Config, i: Issue)
    requires i in xs && IssueVerdict(n => Lookup(xs, n), n => Owners(xs, n), c, i).task.Some?
    ensures Deserves(xs, c, IssueVerdict(n => Lookup(xs, n), n => Owners(xs, n), c, i).task.value)
  {
    var t := IssueVerdict(n => Lookup(xs, n), n => Owners(xs, n), c, i).task.value;
    CommonFailureExactly(t.issue, c);
    OwnersExactly(xs, t.issue.number);
    if IsMap(i) {
      var ref := FirstOpen(i.subIssues).value;
      LookupIs(xs, ref.number);
      CommonFailureExactly(i, c);
      FirstOpenExactly(i.subIssues);
      var k :| 0 <= k < |xs| && xs[k] == i;
      hide Executable, CommonFailure, Owners, Lookup, SoleOwner, NoOwner;
      assert IsFrontier(xs[k], c, ref.number);
    }
    hide Owners, Lookup, Executable, SoleOwner, NoOwner, CommonFailure;
  }

  lemma EligibleParts(xs: seq<Issue>, c: Config, t: Task)
    requires t in EligibleTasks(xs, c)
    ensures t in Tasks(n => Lookup(xs, n), n => Owners(xs, n), c, SortIssues(xs), true)
         || t in Tasks(n => Lookup(xs, n), n => Owners(xs, n), c, SortIssues(xs), false)
  {
    var lookup, owners := n => Lookup(xs, n), n => Owners(xs, n);
    var all := Tasks(lookup, owners, c, SortIssues(xs), true) + Tasks(lookup, owners, c, SortIssues(xs), false);
    SortTasksPermutes(all);
    assert t in multiset(SortTasks(all));
    hide Tasks, SortTasks, SortIssues;
  }

  lemma EligibleDeserves(xs: seq<Issue>, c: Config, t: Task)
    requires t in EligibleTasks(xs, c)
    ensures Deserves(xs, c, t)
  {
    EligibleParts(xs, c, t);
    var lookup, owners, sorted := n => Lookup(xs, n), n => Owners(xs, n), SortIssues(xs);
    TasksComeFrom(lookup, owners, c, sorted, true);
    TasksComeFrom(lookup, owners, c, sorted, false);
    hide Tasks, SortTasks, EligibleTasks, IssueVerdict;
    var maps := ComesFrom(lookup, owners, c, sorted, true, t);
    var i :| 0 <= i < |sorted| && IsMap(sorted[i]) == maps
        && IssueVerdict(lookup, owners, c, sorted[i]).task == Some(t);
    SortPermutes(xs);
    SameMembers(xs, sorted);
    VerdictDeserves(xs, c, sorted[i]);
  }

  lemma EligibleKeysDiffer(xs: seq<Issue>, c: Config)
    requires DistinctNumbers(xs)
    ensures KeysDiffer(EligibleTasks(xs, c)) && Ordered(EligibleTasks(xs, c))
  {
    var lookup, owners, sorted := n => Lookup(xs, n), n => Owners(xs, n), SortIssues(xs);
    SortPermutes(xs);
    DistinctPermutes(xs, sorted);
    TaskKeysDiffer(lookup, owners, c, sorted, true);
    TaskKeysDiffer(lookup, owners, c, sorted, false);
    TasksComeFrom(lookup, owners, c, sorted, true);
    TasksComeFrom(lookup, owners, c, sorted, false);
    var a, b := Tasks(lookup, owners, c, sorted, true), Tasks(lookup, owners, c, sorted, false);
    hide Tasks, SortIssues;
    forall s, t | s in a && t in b ensures s.key != t.key { KindsDiffer(lookup, owners, c, sorted, s, t); }
    SortTasksPermutes(a + b);
    SortTasksOrders(a + b);
    KeysPermute(a + b, SortTasks(a + b));
  }

  lemma KindsDiffer(lookup: int -> Option<Issue>, owners: int -> seq<int>, c: Config, xs: seq<Issue>, s: Task, t: Task)
    requires DistinctNumbers(xs)
      && ComesFrom(lookup, owners, c, xs, true, s)
      && ComesFrom(lookup, owners, c, xs, false, t)
    ensures s.key != t.key
  {
    var i :| 0 <= i < |xs| && IsMap(xs[i]) == true && IssueVerdict(lookup, owners, c, xs[i]).task == Some(s);
    var j :| 0 <= j < |xs| && IsMap(xs[j]) == false && IssueVerdict(lookup, owners, c, xs[j]).task == Some(t);
    VerdictKey(lookup, owners, c, xs[i]);
    VerdictKey(lookup, owners, c, xs[j]);
    hide IssueVerdict;
  }

  lemma KeyTwice(ts: seq<Task>, i: nat, j: nat)
    requires i < j < |ts| && ts[i] == ts[j]
    ensures multiset(ts)[ts[i]] >= 2
  {
    assert ts == ts[..i] + [ts[i]] + ts[i + 1..j] + [ts[j]] + ts[j + 1..];
  }

  lemma {:induction false} DistinctTasksOnce(ts: seq<Task>, t: Task)
    requires KeysDiffer(ts)
    ensures multiset(ts)[t] <= 1
  {
    if ts != [] {
      var n := |ts| - 1;
      DistinctTasksOnce(ts[..n], t);
      assert ts == ts[..n] + [ts[n]];
      assert t == ts[n] ==> t !in multiset(ts[..n]);
    }
  }

  lemma KeysPermute(xs: seq<Task>, ys: seq<Task>)
    requires KeysDiffer(xs) && multiset(xs) == multiset(ys)
    ensures KeysDiffer(ys)
  {
    forall i, j | 0 <= i < j < |ys| ensures ys[i].key != ys[j].key {
      DistinctTasksOnce(xs, ys[i]);
      if ys[i] == ys[j] { KeyTwice(ys, i, j); }
      assert ys[i] in multiset(xs) && ys[j] in multiset(xs);
      var a :| 0 <= a < |xs| && xs[a] == ys[i];
      var b :| 0 <= b < |xs| && xs[b] == ys[j];
      assert a != b;
    }
  }

  /** A deserving task is the verdict on its Map, or on its issue when it has none. */
  lemma DeservingVerdict(xs: seq<Issue>, c: Config, t: Task) returns (i: Issue)
    requires DistinctNumbers(xs) && Deserves(xs, c, t)
    ensures i in xs && IsMap(i) == t.mapNumber.Some?
    ensures IssueVerdict(n => Lookup(xs, n), n => Owners(xs, n), c, i).task == Some(t)
  {
    i := t.issue;
    CommonFailureExactly(t.issue, c);
    OwnersExactly(xs, t.issue.number);
    if t.mapNumber.Some? {
      var k :| 0 <= k < |xs| && xs[k].number == t.mapNumber.value && IsFrontier(xs[k], c, t.issue.number);
      i := xs[k];
      CommonFailureExactly(i, c);
      FirstOpenExactly(i.subIssues);
      LookupIs(xs, t.issue.number);
      var j :| 0 <= j < |xs| && xs[j] == t.issue;
      assert HasNumber(xs, t.issue.number);
      OnlyOne(xs, Lookup(xs, t.issue.number).value, t.issue);
    }
    hide Owners, Lookup, CommonFailure, Executable, SoleOwner, NoOwner, DistinctNumbers;
  }

  lemma {:induction false} TasksInclude(lookup: int -> Option<Issue>, owners: int -> seq<int>, c: Config,
      xs: seq<Issue>, maps: bool, i: Issue)
    requires i in xs && IsMap(i) == maps && IssueVerdict(lookup, owners, c, i).task.Some?
    ensures IssueVerdict(lookup, owners, c, i).task.value in Tasks(lookup, owners, c, xs, maps)
  {
    hide IssueVerdict;
    var n := |xs| - 1;
    if i != xs[n] {
      assert i in xs[..n];
      TasksInclude(lookup, owners, c, xs[..n], maps, i);
    }
  }

  lemma DeservingIsEligible(xs: seq<Issue>, c: Config, t: Task)
    requires DistinctNumbers(xs) && Deserves(xs, c, t)
    ensures t in EligibleTasks(xs, c)
  {
    var i := DeservingVerdict(xs, c, t);
    hide Deserves, IssueVerdict;
    var lookup, owners, sorted := n => Lookup(xs, n), n => Owners(xs, n), SortIssues(xs);
    SortPermutes(xs);
    SameMembers(xs, sorted);
    TasksInclude(lookup, owners, c, sorted, t.mapNumber.Some?, i);
    var all := Tasks(lookup, owners, c, sorted, true) + Tasks(lookup, owners, c, sorted, false);
    hide Tasks, SortIssues;
    assert t in all;
    SortTasksPermutes(all);
    assert t in multiset(SortTasks(all));
  }

  /** The eligible tasks are exactly the deserving ones, no two are for the same issue, and they are in strictly
    * ascending order of key and then number, so that the selection is the least of them. */
  lemma EligibleFacts(xs: seq<Issue>, c: Config)
    requires DistinctNumbers(xs)
    ensures var es := EligibleTasks(xs, c);
      && (forall t :: t in es <==> Deserves(xs, c, t))
      && (forall i, j :: 0 <= i < j < |es| ==>
           && es[i].issue.number != es[j].issue.number && es[i].key <= es[j].key
           && (es[i].key == es[j].key ==> es[i].issue.number < es[j].issue.number))
      && (Selection(es).Some? <==> es != [])
      && (Selection(es).Some? ==> Selection(es).value in es && forall t ::
           t in es && t != Selection(es).value ==>
             var s := Selection(es).value; s.key < t.key || (s.key == t.key && s.issue.number < t.issue.number))
  {
    var es := EligibleTasks(xs, c);
    EligibleKeysDiffer(xs, c);
    forall t | t in es ensures Deserves(xs, c, t) { EligibleDeserves(xs, c, t); }
    forall t | Deserves(xs, c, t) ensures t in es { DeservingIsEligible(xs, c, t); }
    hide EligibleTasks, Owners, SoleOwner, NoOwner, Executable, FrontierOf;
    forall i, j | 0 <= i < j < |es| ensures Before(es[i], es[j]) && es[i].issue.number != es[j].issue.number {
      assert !Before(es[j], es[i]) && es[i].key != es[j].key;
      assert Deserves(xs, c, es[i]) && Deserves(xs, c, es[j]);
    }
    hide Deserves;
  }

  // ----- the diagnostics -----

  /** What is said about the first OPEN child n of an active Map m. */
  ghost predicate ChildDiagnosed(xs: seq<Issue>, c: Config, m: int, n: int, d: Diagnostic) {
    || (d == Diagnostic(m, MissingChildSnapshot) && forall j :: 0 <= j < |xs| ==> xs[j].number != n)
    || (exists j ::
          0 <= j < |xs| && xs[j].number == n && d.issueNumber == n && FrontierDiagnosed(xs, c, m, xs[j], d.reason))
  }

  ghost predicate FrontierDiagnosed(xs: seq<Issue>, c: Config, m: int, f: Issue, r: Reason) {
    if !SoleOwner(xs, m, f.number) || f.parent != Some(m) then r == AmbiguousParent
    else if f.subIssues != [] then r == NestedMap
    else r == MapWaiting && !Executable(f, c)
  }

  /** What selection says because of one issue. */
  ghost predicate Diagnosed(xs: seq<Issue>, c: Config, i: Issue, d: Diagnostic) {
    if i.subIssues == [] then
      i.parent.None? && NoOwner(xs, i.number) && d.issueNumber == i.number && FirstReason(i, c, d.reason)
    else
      || d == Diagnostic(i.number, MapContainer)
      || (d.issueNumber == i.number && FirstReason(i, c, d.reason))
      || (Executable(i, c) && i.parent.Some? && d == Diagnostic(i.number, NestedMap))
      || (Executable(i, c) && i.parent.None? && d == Diagnostic(i.number, MapWaiting)
          && forall j :: 0 <= j < |i.subIssues| ==> !i.subIssues[j].open)
      || (Executable(i, c) && i.parent.None?
          && exists k: nat :: FirstOpenAt(i.subIssues, k) && ChildDiagnosed(xs, c, i.number, i.subIssues[k].number, d))
  }

  lemma ChildExactly(xs: seq<Issue>, c: Config, m: Issue, ref: Ref, d: Diagnostic)
    requires DistinctNumbers(xs) && CommonFailure(m, c).None? && m.parent.None? && FirstOpen(m.subIssues) == Some(ref)
    ensures d in MapVerdict(n => Lookup(xs, n), n => Owners(xs, n), c, m).diagnostics <==>
      d == Diagnostic(m.number, MapContainer) || ChildDiagnosed(xs, c, m.number, ref.number, d)
  {
    var child := Lookup(xs, ref.number);
    LookupIs(xs, ref.number);
    if child.Some? {
      var f := child.value;
      var k :| 0 <= k < |xs| && xs[k] == f;
      forall j | 0 <= j < |xs| && xs[j].number == ref.number ensures xs[j] == f { OnlyOne(xs, xs[j], f); }
      OwnersExactly(xs, f.number);
      CommonFailureExactly(f, c);
      assert ChildDiagnosed(xs, c, m.number, ref.number, d) <==>
        d.issueNumber == f.number && FrontierDiagnosed(xs, c, m.number, f, d.reason) by {
        hide FrontierDiagnosed;
      }
      hide ChildDiagnosed, Owners, Lookup, SoleOwner, NoOwner, Executable, DistinctNumbers, CommonFailure, FirstReason;
    }
    hide FrontierDiagnosed, Owners;
  }

  lemma IssueNotesExactly(xs: seq<Issue>, c: Config, i: Issue, d: Diagnostic)
    requires DistinctNumbers(xs)
    ensures d in IssueVerdict(n => Lookup(xs, n), n => Owners(xs, n), c, i).diagnostics <==> Diagnosed(xs, c, i, d)
  {
    CommonFailureExactly(i, c);
    if IsMap(i) {
      FirstOpenExactly(i.subIssues);
      var ref := FirstOpen(i.subIssues);
      if CommonFailure(i, c).None? && i.parent.None? && ref.Some? {
        ChildExactly(xs, c, i, ref.value, d);
        var k: nat :| FirstOpenAt(i.subIssues, k) && i.subIssues[k] == ref.value;
        assert forall l: nat :: FirstOpenAt(i.subIssues, l) ==> i.subIssues[l] == ref.value;
        hide FirstOpenAt, MapVerdict;
      } else {
        assert forall k: nat :: FirstOpenAt(i.subIssues, k) ==> ref.Some?;
      }
      hide ChildDiagnosed, Owners, Lookup, Executable, DistinctNumbers, CommonFailure, FirstReason;
    } else {
      OwnersExactly(xs, i.number);
    }
    hide Owners, Lookup, Executable, DistinctNumbers, CommonFailure, FirstReason, ChildDiagnosed;
  }

  ghost predicate NotedAt(lookup: int -> Option<Issue>, owners: int -> seq<int>, c: Config, xs: seq<Issue>, maps: bool,
      d: Diagnostic, k: int) {
    0 <= k < |xs| && IsMap(xs[k]) == maps && d in IssueVerdict(lookup, owners, c, xs[k]).diagnostics
  }

  lemma {:induction false} NotesAre(lookup: int -> Option<Issue>, owners: int -> seq<int>, c: Config, xs: seq<Issue>,
      maps: bool, d: Diagnostic)
    ensures d in Notes(lookup, owners, c, xs, maps) <==> exists k :: NotedAt(lookup, owners, c, xs, maps, d, k)
  {
    if xs != [] {
      var n := |xs| - 1;
      NotesAre(lookup, owners, c, xs[..n], maps, d);
      assert forall k :: 0 <= k < n ==>
        (NotedAt(lookup, owners, c, xs, maps, d, k) <==> NotedAt(lookup, owners, c, xs[..n], maps, d, k));
      assert NotedAt(lookup, owners, c, xs, maps, d, n) <==>
        IsMap(xs[n]) == maps && d in IssueVerdict(lookup, owners, c, xs[n]).diagnostics;
      assert forall k :: NotedAt(lookup, owners, c, xs, maps, d, k) ==> 0 <= k <= n;
      hide IssueVerdict, NotedAt;
    }
  }

  /** Selection reports exactly what there is to say about each issue. */
  lemma DiagnosedExactly(xs: seq<Issue>, c: Config, d: Diagnostic)
    requires DistinctNumbers(xs)
    ensures d in AllNotes(xs, c) <==> exists i :: i in xs && Diagnosed(xs, c, i, d)
  {
    var lookup, owners, sorted := n => Lookup(xs, n), n => Owners(xs, n), SortIssues(xs);
    SortPermutes(xs);
    SameMembers(xs, sorted);
    NotesAre(lookup, owners, c, sorted, true, d);
    NotesAre(lookup, owners, c, sorted, false, d);
    forall i { IssueNotesExactly(xs, c, i, d); }
    hide Diagnosed, IssueVerdict, Notes, SortIssues, DistinctNumbers;
    if i :| i in xs && Diagnosed(xs, c, i, d) {
      assert i in sorted;
      var k :| 0 <= k < |sorted| && sorted[k] == i;
      assert NotedAt(lookup, owners, c, sorted, IsMap(i), d, k);
    }
    forall maps, k | NotedAt(lookup, owners, c, sorted, maps, d, k)
      ensures exists i :: i in xs && Diagnosed(xs, c, i, d)
    {
      assert sorted[k] in xs;
    }
    hide NotedAt;
  }

  // ----- a closed graph never misses a child -----

  lemma {:induction false} NotesFound(lookup: int -> Option<Issue>, owners: int -> seq<int>, c: Config,
      xs: seq<Issue>, maps: bool)
    requires forall i, r :: 0 <= i < |xs| && Refers(xs[i], r) ==> lookup(r).Some?
    ensures forall d :: d in Notes(lookup, owners, c, xs, maps) ==> !d.reason.MissingChildSnapshot?
  {
    if xs != [] {
      var n := |xs| - 1;
      forall i, r | 0 <= i < n && Refers(xs[..n][i], r) ensures lookup(r).Some? { assert Refers(xs[i], r); }
      NotesFound(lookup, owners, c, xs[..n], maps);
      VerdictFound(lookup, owners, c, xs[n]);
      hide IssueVerdict;
    }
  }

  lemma VerdictFound(lookup: int -> Option<Issue>, owners: int -> seq<int>, c: Config, i: Issue)
    requires forall r :: Refers(i, r) ==> lookup(r).Some?
    ensures forall d :: d in IssueVerdict(lookup, owners, c, i).diagnostics ==> !d.reason.MissingChildSnapshot?
  {
    var ref := FirstOpen(i.subIssues);
    if ref.Some? {
      var k :| 0 <= k < |i.subIssues| && i.subIssues[k] == ref.value;
      assert Numbers(i.subIssues)[k] == ref.value.number;
      assert Refers(i, ref.value.number);
    }
    assert forall r: Reason :: CommonFailure(i, c) == Some(r) ==> !r.MissingChildSnapshot?;
  }

  /** On a closed set of snapshots, selection never reports a missing child. */
  lemma ClosedNeverMisses(xs: seq<Issue>, c: Config)
    requires Closed(xs)
    ensures forall d :: d in AllNotes(xs, c) ==> !d.reason.MissingChildSnapshot?
  {
    var sorted := SortIssues(xs);
    SortPermutes(xs);
    SameMembers(xs, sorted);
    forall i, r | 0 <= i < |sorted| && Refers(sorted[i], r) ensures Lookup(xs, r).Some? {
      assert sorted[i] in xs;
      var k :| 0 <= k < |xs| && xs[k] == sorted[i];
      assert Refers(xs[k], r) && HasNumber(xs, r);
      LookupIs(xs, r);
    }
    hide Notes, SortIssues;
    NotesFound(n => Lookup(xs, n), n => Owners(xs, n), c, sorted, true);
    NotesFound(n => Lookup(xs, n), n => Owners(xs, n), c, sorted, false);
  }
}
