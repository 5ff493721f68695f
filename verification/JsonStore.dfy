module JsonStore {
  // The job ledger on disk: a lock file created exclusively, a revision compared under it, and an
  // atomic rename. Saves of any number of processes interleave and may crash between any two steps.

  import opened Options
  import opened Utf16
  import opened Ledger

  datatype HarnessState = HarnessState(active: Option<Job>, terminal: seq<Text>)

  const EMPTY := HarnessState(None, [])

  predicate Sound(s: HarnessState) {
    s.active.Some? ==> JobInvariant(s.active.value)
  }

  function RevisionOf(s: HarnessState): Option<int> {
    if s.active.Some? then Some(s.active.value.revision) else None
  }

  datatype Save = Save(next: HarnessState, expected: Option<int>)

  /** `save`: the expected revision of the active job (null for none) is the stored one, and the new job is sound. */
  predicate Saves(before: HarnessState, save: Save) {
    save.expected == RevisionOf(before) && Sound(save.next)
  }

  /** A save that nothing interrupts. */
  class JsonStateStore {
    var disk: Option<HarnessState>

    ghost predicate Valid()
      reads this
    {
      disk.Some? ==> Sound(disk.value)
    }

    function Contents(): HarnessState
      reads this
    {
      GetOr(disk, EMPTY)
    }

    /** `load` validates what it reads; a stored state always passes. */
    method Load() returns (s: HarnessState, ok: bool)
      requires Valid()
      ensures ok && s == Contents() && (s.active.Some? ==> JobInvariant(s.active.value))
    {
      if disk.None? { return EMPTY, true; }
      return disk.value, disk.value.active.None? || JobInvariant(disk.value.active.value);
    }

    method SaveState(next: HarnessState, expected: Option<int>) returns (saved: bool)
      requires Valid()
      modifies this
      ensures Valid()
      ensures saved <==>
        && expected == (if old(Contents()).active.Some? then Some(old(Contents()).active.value.revision) else None)
        && (next.active.Some? ==> JobInvariant(next.active.value))
      ensures Contents() == if saved then next else old(Contents())
    {
      var current, ok := Load();
      var revision: Option<int> := None;
      if current.active.Some? { revision := Some(current.active.value.revision); }
      if revision != expected { return false; }
      if next.active.Some? && !JobInvariant(next.active.value) { return false; }
      disk := Some(next);
      return true;
    }
  }

  // ----- interleaved saves -----

  type Pid = nat

  datatype Proc =
    | Locking(save: Save)
    | Checking(save: Save)
    | Writing(save: Save)
    | Renaming(save: Save)
    | Unlocking(saved: bool)
    | Finished

  datatype Commit = Commit(before: HarnessState, save: Save)

  datatype State = State(
    disk: Option<HarnessState>,
    temp: Option<HarnessState>,     // the one temporary path; none also when its contents are cut short
    lock: Option<Pid>,              // the lock file, and who created it
    procs: map<Pid, Proc>,
    commits: seq<Commit>)           // history

  const INITIAL := State(None, None, None, map[], [])

  datatype Event =
    | Begin(pid: Pid, save: Save)
    | Step(pid: Pid)
    | Fault(pid: Pid)      // an I/O error: the lock is released unless releasing it is what failed
    | Crash(pid: Pid)

  predicate Enabled(s: State, e: Event) {
    match e
    case Begin(pid, _) => pid !in s.procs
    case _ => e.pid in s.procs && !s.procs[e.pid].Finished?
  }

  function Stored(s: State): HarnessState {
    GetOr(s.disk, EMPTY)
  }

  function Go(s: State, pid: Pid, p: Proc): State {
    s.(procs := s.procs[pid := p])
  }

  function Apply(s: State, e: Event): State
    requires Enabled(s, e)
  {
    match e
    case Begin(pid, save) => Go(s, pid, Locking(save))
    case Crash(pid) => Go(s, pid, Finished).(temp := if s.procs[pid].Writing? then None else s.temp)
    case Fault(pid) =>
      (match s.procs[pid]
       case Locking(_) => Go(s, pid, Finished)
       case Writing(_) => Go(s, pid, Unlocking(false)).(temp := None)
       case Unlocking(_) => Go(s, pid, Finished)
       case _ => Go(s, pid, Unlocking(false)))
    case Step(pid) =>
      match s.procs[pid]
      case Locking(save) => if s.lock.Some? then Go(s, pid, Finished)
          else Go(s, pid, Checking(save)).(lock := Some(pid))
      case Checking(save) => Go(s, pid, if Saves(Stored(s), save) then Writing(save) else Unlocking(false))
      case Writing(save) => Go(s, pid, Renaming(save)).(temp := Some(save.next))
      case Renaming(save) =>
        Go(s, pid, Unlocking(true)).(disk := s.temp, temp := None, commits := s.commits + [Commit(Stored(s), save)])
      case Unlocking(_) => Go(s, pid, Finished).(lock := None)
      case Finished => s
  }

  ghost predicate Reaches(s: State, events: seq<Event>, t: State)
    decreases |events|
  {
    if events == [] then s == t else Enabled(s, events[0]) && Reaches(Apply(s, events[0]), events[1..], t)
  }

  // ----- invariant -----

  predicate HoldsLock(p: Proc) {
    p.Checking? || p.Writing? || p.Renaming? || p.Unlocking?
  }

  predicate ProcOk(s: State, pid: Pid, p: Proc) {
    && (HoldsLock(p) ==> s.lock == Some(pid))
    && (p.Writing? || p.Renaming? ==> Saves(Stored(s), p.save))
    && (p.Renaming? ==> s.temp == Some(p.save.next))
  }

  /** The commits are a chain of compare-and-swaps from the empty state to what is stored. */
  predicate Chained(commits: seq<Commit>, stored: HarnessState)
    decreases |commits|
  {
    if commits == [] then stored == EMPTY
    else
      var c := commits[|commits| - 1];
      c.save.next == stored && Saves(c.before, c.save) && Chained(commits[..|commits| - 1], c.before)
  }

  ghost predicate Inv(s: State) {
    && Sound(Stored(s)) && Chained(s.commits, Stored(s))
    && (forall pid :: pid in s.procs ==> ProcOk(s, pid, s.procs[pid]))
  }

  lemma ActorOk(s: State, e: Event)
    requires Enabled(s, e) && (!e.Begin? ==> ProcOk(s, e.pid, s.procs[e.pid]))
    ensures e.pid in Apply(s, e).procs && ProcOk(Apply(s, e), e.pid, Apply(s, e).procs[e.pid])
  {
    hide Sound;
  }

  lemma OtherOk(s: State, e: Event, pid: Pid)
    requires Enabled(s, e) && pid in s.procs && pid != e.pid && ProcOk(s, pid, s.procs[pid])
    requires !e.Begin? ==> ProcOk(s, e.pid, s.procs[e.pid])
    ensures pid in Apply(s, e).procs && ProcOk(Apply(s, e), pid, Apply(s, e).procs[pid])
  {
    hide Sound;
  }

  lemma StoredOk(s: State, e: Event)
    requires Enabled(s, e) && Sound(Stored(s)) && Chained(s.commits, Stored(s))
    requires !e.Begin? ==> ProcOk(s, e.pid, s.procs[e.pid])
    ensures Sound(Stored(Apply(s, e))) && Chained(Apply(s, e).commits, Stored(Apply(s, e)))
  {
    var t := Apply(s, e);
    if |t.commits| > |s.commits| {
      assert t.commits[..|t.commits| - 1] == s.commits;
    }
    hide JobInvariant;
  }

  lemma StepKeepsInv(s: State, e: Event)
    requires Inv(s) && Enabled(s, e)
    ensures Inv(Apply(s, e))
  {
    StoredOk(s, e);
    ActorOk(s, e);
    var t := Apply(s, e);
    assert t.procs.Keys <= s.procs.Keys + {e.pid};
    forall pid | pid in t.procs ensures ProcOk(t, pid, t.procs[pid]) {
      if pid != e.pid { OtherOk(s, e, pid); }
    }
  }

  lemma {:induction false} RunKeepsInv(s: State, events: seq<Event>, t: State)
    requires Inv(s) && Reaches(s, events, t)
    ensures Inv(t)
    decreases |events|
  {
    if events != [] {
      StepKeepsInv(s, events[0]);
      RunKeepsInv(Apply(s, events[0]), events[1..], t);
    }
  }

  lemma InitialOk()
    ensures Inv(INITIAL)
  {
  }

  // ----- guarantees over every run -----

  /** At most one process is between taking and releasing the lock. */
  lemma MutualExclusion(events: seq<Event>, t: State, a: Pid, b: Pid)
    requires Reaches(INITIAL, events, t)
    requires a in t.procs && b in t.procs && HoldsLock(t.procs[a]) && HoldsLock(t.procs[b])
    ensures a == b
  {
    RunKeepsInv(INITIAL, events, t);
    assert ProcOk(t, a, t.procs[a]) && ProcOk(t, b, t.procs[b]);
  }

  lemma {:induction false} ChainLinks(commits: seq<Commit>, stored: HarnessState, k: nat)
    requires Chained(commits, stored) && k < |commits|
    ensures Saves(commits[k].before, commits[k].save)
    ensures k + 1 < |commits| ==> commits[k + 1].before == commits[k].save.next
    ensures commits[0].before == EMPTY && commits[|commits| - 1].save.next == stored
    decreases |commits|
  {
    var n := |commits| - 1;
    if n > 0 {
      ChainLinks(commits[..n], commits[n].before, if k < n then k else 0);
      assert commits[..n][n - 1] == commits[n - 1] && commits[..n][0] == commits[0];
    }
    assert commits[..n] == [] || n > 0;
  }

  /** The commit replaced what its saver expected, by a job that satisfies the invariant. */
  ghost predicate CommitFits(c: Commit) {
    && c.save.expected == (if c.before.active.Some? then Some(c.before.active.value.revision) else None)
    && (c.save.next.active.Some? ==> JobInvariant(c.save.next.active.value))
  }

  /** Whatever interleaves or crashes, the stored state is sound and is the last of a chain of saves, from the
    * empty state on, each of which replaced exactly what the one before it stored, at the revision it expected. */
  lemma StoredBySerialSaves(events: seq<Event>, t: State)
    requires Reaches(INITIAL, events, t)
    ensures Sound(Stored(t)) && Chained(t.commits, Stored(t))
    ensures Stored(t).active.Some? ==> JobInvariant(Stored(t).active.value)
    ensures var cs := t.commits;
      && (if cs == [] then Stored(t) == EMPTY else cs[0].before == EMPTY && cs[|cs| - 1].save.next == Stored(t))
      && (forall k :: 0 <= k < |cs| ==> CommitFits(cs[k]))
      && forall k :: 0 <= k < |cs| - 1 ==> cs[k + 1].before == cs[k].save.next
  {
    RunKeepsInv(INITIAL, events, t);
    forall k | 0 <= k < |t.commits| ensures CommitFits(t.commits[k]) { ChainLinks(t.commits, Stored(t), k); }
    forall k | 0 <= k < |t.commits| - 1 ensures t.commits[k + 1].before == t.commits[k].save.next {
      ChainLinks(t.commits, Stored(t), k);
    }
    if t.commits != [] { ChainLinks(t.commits, Stored(t), 0); }
    hide Inv, JobInvariant;
  }

  /** The saver derived its job from the revision it expects: what every caller that evolves the loaded job does. */
  predicate Evolves(save: Save) {
    save.expected.Some? && save.next.active.Some? && save.next.active.value.revision == save.expected.value + 1
  }

  /** Commits m to n - 1 all evolve the job: no job ended in between. */
  predicate OneLifetime(commits: seq<Commit>, m: nat, n: nat) {
    m <= n < |commits| && forall k :: m <= k < n ==> Evolves(commits[k].save)
  }

  /** Within one job's lifetime the expected revisions of the commits strictly increase ... */
  lemma {:induction false} RevisionsIncrease(commits: seq<Commit>, stored: HarnessState, m: nat, n: nat)
    requires Chained(commits, stored) && OneLifetime(commits, m, n)
    ensures m < n ==>
      commits[m].save.expected.Some? && commits[n].save.expected == Some(commits[m].save.expected.value + (n - m))
    decreases n
  {
    if m < n {
      RevisionsIncrease(commits, stored, m, n - 1);
      ChainLinks(commits, stored, n - 1);
      ChainLinks(commits, stored, n);
      assert Evolves(commits[n - 1].save);
    }
  }

  /** ... so of all the savers that expect one revision, at most one commits. */
  lemma OneWinnerPerRevision(events: seq<Event>, t: State, m: nat, n: nat)
    requires Reaches(INITIAL, events, t) && OneLifetime(t.commits, m, n)
    requires t.commits[m].save.expected == t.commits[n].save.expected
    ensures m == n
  {
    RunKeepsInv(INITIAL, events, t);
    RevisionsIncrease(t.commits, Stored(t), m, n);
  }

  /** A process that dies holding the lock stops every later save: the stored state never changes again. */
  predicate Orphaned(s: State) {
    s.lock.Some? && s.lock.value in s.procs && s.procs[s.lock.value].Finished?
  }

  lemma {:induction false} OrphanedLockFreezes(s: State, events: seq<Event>, t: State)
    requires Inv(s) && Orphaned(s) && Reaches(s, events, t)
    ensures Orphaned(t) && t.disk == s.disk && t.commits == s.commits
    decreases |events|
  {
    if events != [] {
      StepKeepsInv(s, events[0]);
      assert events[0].Begin? || ProcOk(s, events[0].pid, s.procs[events[0].pid]);
      OrphanedLockFreezes(Apply(s, events[0]), events[1..], t);
    }
  }

  lemma {:induction false} ReachesJoin(s: State, e1: seq<Event>, t: State, e2: seq<Event>, u: State)
    requires Reaches(s, e1, t) && Reaches(t, e2, u)
    ensures Reaches(s, e1 + e2, u)
    decreases |e1|
  {
    if e1 == [] {
      assert e1 + e2 == e2;
    } else {
      assert (e1 + e2)[1..] == e1[1..] + e2;
      ReachesJoin(Apply(s, e1[0]), e1[1..], t, e2, u);
    }
  }

  lemma ReachesOne(s: State, e: Event)
    requires Enabled(s, e)
    ensures Reaches(s, [e], Apply(s, e))
  {
    assert [e][1..] == [];
  }

  /** And that is what a crash inside a save leaves: from any reachable state with the lock free, a process that
    * takes it and dies freezes the store in whatever follows. */
  lemma CrashFreezes(events: seq<Event>, s: State, pid: Pid, save: Save, more: seq<Event>, u: State) returns (t: State)
    requires Reaches(INITIAL, events, s) && s.lock.None? && pid !in s.procs
    ensures Reaches(INITIAL, events + [Begin(pid, save), Step(pid), Crash(pid)], t) && Orphaned(t) && t.disk == s.disk
    ensures Reaches(t, more, u) ==> u.disk == s.disk
  {
    var s1 := Apply(s, Begin(pid, save));
    var s2 := Apply(s1, Step(pid));
    t := Apply(s2, Crash(pid));
    var crash := [Begin(pid, save), Step(pid), Crash(pid)];
    assert t.disk == s.disk && Orphaned(t);
    ReachesOne(s, Begin(pid, save));
    ReachesOne(s1, Step(pid));
    ReachesOne(s2, Crash(pid));
    hide Apply, Enabled, Inv, Orphaned, Reaches;
    ReachesJoin(s, [Begin(pid, save)], s1, [Step(pid)], s2);
    ReachesJoin(s, [Begin(pid, save)] + [Step(pid)], s2, [Crash(pid)], t);
    assert [Begin(pid, save)] + [Step(pid)] + [Crash(pid)] == crash;
    ReachesJoin(INITIAL, events, s, crash, t);
    InitialOk();
    RunKeepsInv(INITIAL, events + crash, t);
    if Reaches(t, more, u) { OrphanedLockFreezes(t, more, u); }
  }

  // ----- an uninterrupted save, and where the revision alone is not enough -----

  function SaveEvents(pid: Pid, save: Save): seq<Event> {
    [Begin(pid, save), Step(pid), Step(pid), Step(pid), Step(pid), Step(pid)]
  }

  /** Run from a free lock without interruption, the steps of one save store its state, as `SaveState` does. */
  lemma WholeSave(s: State, pid: Pid, save: Save) returns (t: State)
    requires s.lock.None? && pid !in s.procs && Saves(Stored(s), save)
    ensures Reaches(s, SaveEvents(pid, save), t)
    ensures t == State(Some(save.next), None, None, s.procs[pid := Finished], s.commits + [Commit(Stored(s), save)])
  {
    var s1 := Apply(s, Begin(pid, save));
    var s2 := Apply(s1, Step(pid));
    var s3 := Apply(s2, Step(pid));
    var s4 := Apply(s3, Step(pid));
    var s5 := Apply(s4, Step(pid));
    t := Apply(s5, Step(pid));
    assert t.procs == s.procs[pid := Finished];
    hide Saves;
    ReachesOne(s, Begin(pid, save));
    ReachesOne(s1, Step(pid));
    ReachesOne(s2, Step(pid));
    ReachesOne(s3, Step(pid));
    ReachesOne(s4, Step(pid));
    ReachesOne(s5, Step(pid));
    hide Apply, Enabled;
    ReachesJoin(s, [Begin(pid, save)], s1, [Step(pid)], s2);
    ReachesJoin(s, [Begin(pid, save)] + [Step(pid)], s2, [Step(pid)], s3);
    ReachesJoin(s, [Begin(pid, save)] + [Step(pid)] + [Step(pid)], s3, [Step(pid)], s4);
    ReachesJoin(s, [Begin(pid, save)] + [Step(pid)] + [Step(pid)] + [Step(pid)], s4, [Step(pid)], s5);
    ReachesJoin(s, [Begin(pid, save)] + [Step(pid)] + [Step(pid)] + [Step(pid)] + [Step(pid)], s5, [Step(pid)], t);
    assert [Begin(pid, save)] + [Step(pid)] + [Step(pid)] + [Step(pid)] + [Step(pid)] + [Step(pid)]
      == SaveEvents(pid, save);
  }

  // ----- when the store can still move -----

  /** A lock file is there because its creator holds the lock or died holding it. */
  predicate LockAccounted(s: State) {
    s.lock.Some? ==> s.lock.value in s.procs && (HoldsLock(s.procs[s.lock.value]) || s.procs[s.lock.value].Finished?)
  }

  lemma StepAccountsLock(s: State, e: Event)
    requires Inv(s) && LockAccounted(s) && Enabled(s, e)
    ensures LockAccounted(Apply(s, e))
  {
    assert e.Begin? || ProcOk(s, e.pid, s.procs[e.pid]);
    hide Inv, Saves;
  }

  lemma {:induction false} LockStaysAccounted(s: State, events: seq<Event>, t: State)
    requires Inv(s) && LockAccounted(s) && Reaches(s, events, t)
    ensures LockAccounted(t)
    decreases |events|
  {
    if events != [] {
      StepKeepsInv(s, events[0]);
      StepAccountsLock(s, events[0]);
      hide Inv, LockAccounted, Apply;
      LockStaysAccounted(Apply(s, events[0]), events[1..], t);
    }
  }

  function Distance(p: Proc): nat {
    match p
    case Checking(_) => 3
    case Writing(_) => 2
    case Renaming(_) => 1
    case _ => 0
  }

  /** Left to finish, the holder of the lock releases it. */
  lemma {:induction false} HolderReleases(s: State, pid: Pid) returns (events: seq<Event>, t: State)
    requires Inv(s) && s.lock == Some(pid) && pid in s.procs && HoldsLock(s.procs[pid])
    ensures Reaches(s, events, t) && t.lock.None? && |t.commits| >= |s.commits|
    decreases Distance(s.procs[pid])
  {
    var u := Apply(s, Step(pid));
    ReachesOne(s, Step(pid));
    StepKeepsInv(s, Step(pid));
    if s.procs[pid].Unlocking? {
      events, t := [Step(pid)], u;
    } else {
      var rest;
      hide Inv, Saves, Reaches;
      rest, t := HolderReleases(u, pid);
      events := [Step(pid)] + rest;
      ReachesJoin(s, [Step(pid)], u, rest, t);
    }
  }

  lemma {:induction false} FreshPid(pids: set<Pid>) returns (pid: Pid)
    ensures pid !in pids && forall q :: q in pids ==> q < pid
    decreases |pids|
  {
    if q :| q in pids {
      var above := FreshPid(pids - {q});
      pid := if above > q then above else q + 1;
      assert forall r :: r in pids ==> r == q || r in pids - {q};
    } else {
      pid := 0;
    }
  }

  /** The state is stored by some continuation of the run. */
  ghost predicate CanStore(s: State, next: HarnessState) {
    exists more, t :: Reaches(s, more, t) && |t.commits| > |s.commits| && t.disk == Some(next)
  }

  lemma FreeLockStores(s: State, next: HarnessState) returns (more: seq<Event>, t: State)
    requires s.lock.None? && Sound(next)
    ensures Reaches(s, more, t) && |t.commits| > |s.commits| && t.disk == Some(next)
  {
    var pid := FreshPid(s.procs.Keys);
    var save := Save(next, RevisionOf(Stored(s)));
    t := WholeSave(s, pid, save);
    more := SaveEvents(pid, save);
  }

  /** At any point of any run, every sound state can still be stored if and only if no process died holding the lock. */
  lemma StoreMovesExactly(events: seq<Event>, s: State, next: HarnessState)
    requires Reaches(INITIAL, events, s) && Sound(next)
    ensures CanStore(s, next) <==> !Orphaned(s)
  {
    InitialOk();
    RunKeepsInv(INITIAL, events, s);
    LockStaysAccounted(INITIAL, events, s);
    if Orphaned(s) {
      forall more, t | Reaches(s, more, t) ensures t.commits == s.commits { OrphanedLockFreezes(s, more, t); }
    } else if s.lock.Some? {
      var front, u := HolderReleases(s, s.lock.value);
      hide Inv, Reaches;
      var back, t := FreeLockStores(u, next);
      ReachesJoin(s, front, u, back, t);
    } else {
      var more, t := FreeLockStores(s, next);
    }
  }

  /** A job as it is when first claimed. */
  function FreshJob(id: Text, revision: int): Job {
    Job(id, revision, Claimed, Plain([]), [], false, None, None, [], 1, None, [], None, None, None, [], None, [],
        None, None, 0,
        None, None, Stamp(None, 0))
  }

  lemma FreshJobSound(id: Text, revision: nat)
    requires |id| > 0 && !IsSpace(id[0])
    ensures JobInvariant(FreshJob(id, revision))
  {
    var j := FreshJob(id, revision);
    assert HasInk(id) && !HasInk([]);
    assert AllAttempts(j.attempts, j.activeAttempt) == [];
  }

  /** One more uninterrupted save at the end of a run. */
  lemma NextSave(events: seq<Event>, s: State, pid: Pid, save: Save) returns (more: seq<Event>, t: State)
    requires Reaches(INITIAL, events, s) && s.lock.None? && pid !in s.procs && Saves(Stored(s), save)
    ensures Reaches(INITIAL, more, t) && t.lock.None? && t.procs.Keys == s.procs.Keys + {pid}
    ensures t.disk == Some(save.next) && t.commits == s.commits + [Commit(Stored(s), save)]
  {
    t := WholeSave(s, pid, save);
    more := events + SaveEvents(pid, save);
    ReachesJoin(INITIAL, events, s, SaveEvents(pid, save), t);
  }

  /** Four saves one after the other: a job starts, ends, another starts, and a fourth state is saved over it. */
  lemma FourSaves(first: HarnessState, second: HarnessState, late: HarnessState) returns (events: seq<Event>, t: State)
    requires Sound(first)
      && Sound(second)
      && Sound(late)
      && RevisionOf(first) == Some(0)
      && RevisionOf(second) == Some(0)
    ensures Reaches(INITIAL, events, t)
      && |t.commits| == 4
      && t.commits[3] == Commit(second, Save(late, Some(0)))
  {
    assert Reaches(INITIAL, [], INITIAL) && Sound(EMPTY);
    hide Sound, Apply, Enabled, Reaches;
    var s: State;
    events, s := NextSave([], INITIAL, 1, Save(first, None));
    events, s := NextSave(events, s, 2, Save(EMPTY, Some(0)));
    events, s := NextSave(events, s, 3, Save(second, None));
    events, t := NextSave(events, s, 4, Save(late, Some(0)));
  }

  /** The comparison is of revisions only. Once a job has ended, a saver still holding it commits over the next
    * job as soon as that one reaches the expected revision: a run in which the stored job B is replaced by an
    * evolved A. */
  lemma StaleSaverCrossesJobs() returns (events: seq<Event>, t: State)
    ensures Reaches(INITIAL, events, t) && |t.commits| == 4
    ensures var c := t.commits[3];
      Evolves(c.save) && c.before.active.Some? && c.before.active.value.id != c.save.next.active.value.id
  {
    hide JobInvariant;
    var a, b: Text := [0x41], [0x42];
    FreshJobSound(a, 0);
    FreshJobSound(a, 1);
    FreshJobSound(b, 0);
    var first, second := HarnessState(Some(FreshJob(a, 0)), []), HarnessState(Some(FreshJob(b, 0)), []);
    var late := HarnessState(Some(FreshJob(a, 1)), []);
    assert RevisionOf(first) == RevisionOf(second) == Some(0);
    assert Evolves(Save(late, Some(0))) && second.active.Some? && second.active.value.id != late.active.value.id;
    hide FreshJob;
    assert Sound(first) && Sound(second) && Sound(late);
    hide *;
    events, t := FourSaves(first, second, late);
  }

  /** What commit k does when every saver knows its job: it starts a job under a new id, evolves the stored one,
    * or ends it. */
  predicate OwnJob(commits: seq<Commit>, k: nat)
    requires k < |commits|
  {
    var was, now := commits[k].before.active, commits[k].save.next.active;
    && (was.None? && now.Some? ==>
         forall j :: 0 <= j <= k && commits[j].before.active.Some?
             ==> commits[j].before.active.value.id != now.value.id)
    && (was.Some? && now.Some? ==> now.value.id == was.value.id && now.value.revision == was.value.revision + 1)
  }

  lemma {:induction false} SameIdSameLifetime(commits: seq<Commit>, stored: HarnessState, m: nat, n: nat)
    requires Chained(commits, stored)
      && m <= n < |commits|
      && (forall k: nat :: m <= k < n ==> OwnJob(commits, k))
    requires commits[m].before.active.Some?
    requires commits[n].before.active.Some?
      && commits[n].before.active.value.id == commits[m].before.active.value.id
    ensures commits[n].before.active.value.revision == commits[m].before.active.value.revision + (n - m)
    decreases n
  {
    if m < n {
      ChainLinks(commits, stored, n - 1);
      assert OwnJob(commits, n - 1);
      SameIdSameLifetime(commits, stored, m, n - 1);
    }
  }

  /** Exactly when the revision is enough: a saver that loaded the job stored before commit m, and whose own commit n
    * passes the comparison, replaces what it loaded if and only if the stored job still has the id it loaded. */
  lemma LostUpdateExactly(events: seq<Event>, t: State, m: nat, n: nat)
    requires Reaches(INITIAL, events, t)
      && m <= n < |t.commits|
      && (forall k: nat :: m <= k < n ==> OwnJob(t.commits, k))
    requires t.commits[m].before.active.Some?
      && t.commits[n].save.expected == RevisionOf(t.commits[m].before)
    ensures t.commits[n].before == t.commits[m].before
      <==>
        t.commits[n].before.active.Some? && t.commits[n].before.active.value.id == t.commits[m].before.active.value.id
  {
    RunKeepsInv(INITIAL, events, t);
    ChainLinks(t.commits, Stored(t), n);
    if t.commits[n].before.active.Some? && t.commits[n].before.active.value.id == t.commits[m].before.active.value.id {
      SameIdSameLifetime(t.commits, Stored(t), m, n);
    }
  }
}
