module CredentialLease {
  // The credential startup lease: exclusive create, heartbeat, stop and reclaim of a stale
  // lease under a native lock, as interleaved file-system steps of any number of processes,
  // each of which may crash between any two steps.

  type Id = nat
  type Pid = nat

  /** The record kept in the lease file; provider and domain are fixed by the path. */
  datatype Lease = Lease(id: Id, pid: Pid, heartbeat: int)

  /** The lease path: no file, a file without a complete valid record (and who created it), or a record. */
  datatype File = Absent | Partial(creator: Id) | Written(lease: Lease)

  /** Where one acquisition (one fresh instance id) stands. */
  datatype Phase =
    | Trying                     // about to open the path exclusively
    | Creating                   // opened it; the record is not complete
    | Created                    // the record is complete; not yet returned
    | Observing                  // the path existed; about to read it
    | Judging(observed: Lease)   // read a record; about to decide
    | Reclaiming                 // waiting for its reclaim helper
    | Holding
    | Refreshing                 // heartbeat has checked the file; about to rename
    | Releasing                  // stop has checked the file; about to unlink
    | Over                       // failed, restarted under another id, or stopped

  /** The reclaim helper process of an acquisition, run under the native lock. */
  datatype Helper =
    | NoHelper
    | Queued(observed: Lease)    // waiting for the native lock
    | Locked(observed: Lease)    // holds the lock; has not read the file
    | Verified                   // holds the lock; every check passed
    | Renamed                    // holds the lock; the replacement is in place
    | Reclaimed                  // exited, reporting "reclaimed"
    | Changed                    // exited, reporting "changed" or an error, or died

  datatype Attempt = Attempt(pid: Pid, phase: Phase, helper: Helper, stamp: int)

  datatype State = State(file: File, now: int, dead: set<Pid>, attempts: map<Id, Attempt>, lock: set<Id>)

  datatype Event =
    | Begin(id: Id, pid: Pid)
    | OpenExclusive(id: Id)
    | FinishWrite(id: Id)
    | Return(id: Id)
    | Observe(id: Id)
    | Judge(id: Id)
    | HelperLock(id: Id)
    | HelperVerify(id: Id)
    | HelperRename(id: Id)
    | HelperExit(id: Id)
    | HelperCrash(id: Id)
    | Collect(id: Id)
    | HeartbeatRead(id: Id)
    | HeartbeatRename(id: Id)
    | StopRead(id: Id)
    | StopUnlink(id: Id)
    | Fail(id: Id)               // an I/O error, a timeout, or a heartbeat error seen by stop
    | Crash(pid: Pid)
    | Tick(time: int)

  function SetPhase(s: State, id: Id, phase: Phase): State
    requires id in s.attempts
  {
    s.(attempts := s.attempts[id := s.attempts[id].(phase := phase)])
  }

  function SetHelper(s: State, id: Id, helper: Helper): State
    requires id in s.attempts
  {
    s.(attempts := s.attempts[id := s.attempts[id].(helper := helper)])
  }

  predicate Carries(file: File, id: Id, pid: Pid) {
    file.Written? && file.lease.id == id && file.lease.pid == pid
  }

  predicate Stale(s: State, l: Lease, staleAfter: int) {
    l.pid in s.dead && s.now - l.heartbeat >= staleAfter
  }

  /** Whether the event is a step of a process that must be running for it to happen. */
  predicate ByProcess(e: Event) {
    e.OpenExclusive? || e.FinishWrite? || e.Return? || e.Observe? || e.Judge? || e.Collect?
    || e.HeartbeatRead? || e.HeartbeatRename? || e.StopRead? || e.StopUnlink? || e.Fail?
  }

  /** When an event can happen. */
  predicate Enabled(s: State, e: Event) {
    match e
    case Begin(id, pid) => id !in s.attempts && pid !in s.dead
    case Crash(pid) => true
    case Tick(time) => s.now <= time
    case _ =>
      && e.id in s.attempts
      && var a := s.attempts[e.id];
      && (ByProcess(e) ==> a.pid !in s.dead)
      && match e
         case OpenExclusive(_) => a.phase.Trying?
         case FinishWrite(_) => a.phase.Creating?
         case Return(_) => a.phase.Created?
         case Observe(_) => a.phase.Observing?
         case Judge(_) => a.phase.Judging?
         case HelperLock(_) => a.helper.Queued? && s.lock == {}
         case HelperVerify(_) => a.helper.Locked?
         case HelperRename(_) => a.helper.Verified?
         case HelperExit(_) => a.helper.Renamed?
         case HelperCrash(_) => a.helper.Queued? || a.helper.Locked? || a.helper.Verified? || a.helper.Renamed?
         case Collect(_) => a.phase.Reclaiming? && (a.helper.Reclaimed? || a.helper.Changed?)
         case HeartbeatRead(_) => a.phase.Holding?
         case HeartbeatRename(_) => a.phase.Refreshing?
         case StopRead(_) => a.phase.Holding?
         case StopUnlink(_) => a.phase.Releasing?
         case Fail(_) => !a.phase.Over?
  }

  /** What an event does to the shared file and to the process that performs it. */
  function Apply(s: State, e: Event, staleAfter: int): State
    requires Enabled(s, e)
  {
    match e
    case Begin(id, pid) => s.(attempts := s.attempts[id := Attempt(pid, Trying, NoHelper, s.now)])
    case Crash(pid) => s.(dead := s.dead + {pid})
    case Tick(time) => s.(now := time)
    case OpenExclusive(id) =>
      if s.file.Absent? then SetPhase(s, id, Creating).(file := Partial(id)) else SetPhase(s, id, Observing)
    case FinishWrite(id) =>
      var a := s.attempts[id];
      // the write goes to the inode that was opened, which the path may no longer name
      SetPhase(s, id, Created).(file := if s.file == Partial(id) then Written(Lease(id, a.pid, a.stamp)) else s.file)
    case Return(id) => SetPhase(s, id, Holding)
    case Observe(id) => SetPhase(s, id, if s.file.Written? then Judging(s.file.lease) else Over)
    case Judge(id) =>
      var observed := s.attempts[id].phase.observed;
      if Stale(s, observed, staleAfter) then SetHelper(SetPhase(s, id, Reclaiming), id, Queued(observed))
      else SetPhase(s, id, Over)
    case HelperLock(id) => SetHelper(s, id, Locked(s.attempts[id].helper.observed)).(lock := {id})
    case HelperVerify(id) =>
      var observed := s.attempts[id].helper.observed;
      if s.file.Written? && s.file.lease.id == observed.id && s.file.lease.heartbeat == observed.heartbeat
         && Stale(s, s.file.lease, staleAfter)
      then SetHelper(s, id, Verified)
      else SetHelper(s, id, Changed).(lock := s.lock - {id})
    case HelperRename(id) =>
      var a := s.attempts[id];
      SetHelper(s, id, Renamed).(file := Written(Lease(id, a.pid, a.stamp)))
    case HelperExit(id) => SetHelper(s, id, Reclaimed).(lock := s.lock - {id})
    case HelperCrash(id) => SetHelper(s, id, Changed).(lock := s.lock - {id})
    case Collect(id) => SetPhase(s, id, if s.attempts[id].helper.Reclaimed? then Holding else Over)
    case HeartbeatRead(id) =>
      if Carries(s.file, id, s.attempts[id].pid) then SetPhase(s, id, Refreshing) else s
    case HeartbeatRename(id) =>
      SetPhase(s, id, Holding).(file := Written(Lease(id, s.attempts[id].pid, s.now)))
    case StopRead(id) =>
      SetPhase(s, id, if Carries(s.file, id, s.attempts[id].pid) then Releasing else Over)
    case StopUnlink(id) => SetPhase(s, id, Over).(file := Absent)
    case Fail(id) => SetPhase(s, id, if s.attempts[id].phase.Refreshing? then Holding else Over)
  }

  /** Any file may be left over from earlier; nobody has started. */
  predicate Init(s: State) {
    s.attempts == map[] && s.lock == {}
  }

  ghost predicate Execution(states: seq<State>, events: seq<Event>, staleAfter: int) {
    && |states| == |events| + 1 && Init(states[0])
    && forall i :: 0 <= i < |events| ==>
         Enabled(states[i], events[i]) && states[i + 1] == Apply(states[i], events[i], staleAfter)
  }

  // ----- the invariant -----

  /** The process is running and its acquisition owns the lease. */
  predicate Owns(s: State, id: Id) {
    && id in s.attempts && s.attempts[id].pid !in s.dead
    && var p := s.attempts[id].phase; p.Created? || p.Holding? || p.Refreshing? || p.Releasing?
  }

  /** The process is running and inside the critical section the lease protects. */
  predicate LiveHolder(s: State, id: Id) {
    && id in s.attempts && s.attempts[id].pid !in s.dead
    && var p := s.attempts[id].phase; p.Holding? || p.Refreshing? || p.Releasing?
  }

  /** Reclaimed on behalf of a process that is still waiting to hear it. */
  predicate Granted(s: State, id: Id) {
    && id in s.attempts && s.attempts[id].pid !in s.dead
    && s.attempts[id].phase.Reclaiming?
    && (s.attempts[id].helper.Renamed? || s.attempts[id].helper.Reclaimed?)
  }

  predicate InLock(h: Helper) {
    h.Locked? || h.Verified? || h.Renamed?
  }

  predicate AttemptOk(s: State, id: Id, staleAfter: int)
    requires id in s.attempts
  {
    var a := s.attempts[id];
    && (Owns(s, id) || Granted(s, id) ==> Carries(s.file, id, a.pid))
    && (a.pid !in s.dead && a.phase.Creating? ==> s.file == Partial(id))
    && (a.helper.Verified? ==> s.file.Written? && Stale(s, s.file.lease, staleAfter))
    && (InLock(a.helper) <==> id in s.lock)
    && (a.phase.Reclaiming? ==> !a.helper.NoHelper?)
    && (!a.helper.NoHelper? ==>
          || a.phase.Reclaiming? || a.phase.Over?
          || (a.helper.Reclaimed? && (a.phase.Holding? || a.phase.Refreshing? || a.phase.Releasing?)))
    && a.stamp <= s.now
  }

  ghost predicate Inv(s: State, staleAfter: int) {
    && (forall id :: id in s.attempts ==> AttemptOk(s, id, staleAfter))
    && (forall a, b :: a in s.lock && b in s.lock ==> a == b)
    && (forall id :: id in s.lock ==> id in s.attempts)
  }

  lemma StepKeepsOthers(s: State, e: Event, staleAfter: int, id: Id)
    requires Inv(s, staleAfter) && Enabled(s, e)
    requires id in s.attempts && (e.Crash? || e.Tick? || e.id != id)
    ensures id in Apply(s, e, staleAfter).attempts && AttemptOk(Apply(s, e, staleAfter), id, staleAfter)
  {
    assert AttemptOk(s, id, staleAfter);
    match e {
      case Crash(_) =>
      case Tick(_) =>
      case Begin(_, _) =>
      case _ => assert AttemptOk(s, e.id, staleAfter);
    }
  }

  lemma StepKeepsActor(s: State, e: Event, staleAfter: int)
    requires Inv(s, staleAfter) && Enabled(s, e) && !e.Crash? && !e.Tick?
    ensures AttemptOk(Apply(s, e, staleAfter), e.id, staleAfter)
  {
    if !e.Begin? { assert AttemptOk(s, e.id, staleAfter); }
  }

  lemma StepKeepsInv(s: State, e: Event, staleAfter: int)
    requires Inv(s, staleAfter) && Enabled(s, e)
    ensures Inv(Apply(s, e, staleAfter), staleAfter)
  {
    var t := Apply(s, e, staleAfter);
    forall id | id in t.attempts ensures AttemptOk(t, id, staleAfter) {
      if !e.Crash? && !e.Tick? && e.id == id { StepKeepsActor(s, e, staleAfter); }
          else { StepKeepsOthers(s, e, staleAfter, id); }
    }
  }

  lemma {:induction false} ExecutionKeepsInv(states: seq<State>, events: seq<Event>, staleAfter: int, n: nat)
    requires Execution(states, events, staleAfter) && n < |states|
    ensures Inv(states[n], staleAfter)
  {
    if n > 0 {
      ExecutionKeepsInv(states, events, staleAfter, n - 1);
      StepKeepsInv(states[n - 1], events[n - 1], staleAfter);
    }
  }

  // ----- what the protocol guarantees at every point of every execution -----

  /** At most one live process holds the lease, and the file names it. */
  lemma AtMostOneLiveHolder(states: seq<State>, events: seq<Event>, staleAfter: int, n: nat, a: Id, b: Id)
    requires Execution(states, events, staleAfter) && n < |states|
    requires LiveHolder(states[n], a) && LiveHolder(states[n], b)
    ensures a == b && Carries(states[n].file, a, states[n].attempts[a].pid)
  {
    ExecutionKeepsInv(states, events, staleAfter, n);
    assert AttemptOk(states[n], a, staleAfter) && AttemptOk(states[n], b, staleAfter);
  }

  /** While a process holds the lease and lives, only its own heartbeat or stop touches the file. */
  lemma OnlyTheHolderTouchesTheFile(states: seq<State>, events: seq<Event>, staleAfter: int, n: nat, a: Id)
    requires Execution(states, events, staleAfter) && n < |events|
    requires LiveHolder(states[n], a) && states[n + 1].file != states[n].file
    ensures events[n] == HeartbeatRename(a) || events[n] == StopUnlink(a)
    ensures events[n].HeartbeatRename?
      ==> LiveHolder(states[n + 1], a) && Carries(states[n + 1].file, a, states[n].attempts[a].pid)
  {
    var s, e := states[n], events[n];
    ExecutionKeepsInv(states, events, staleAfter, n);
    assert AttemptOk(s, a, staleAfter);
    if !e.Crash? && !e.Tick? && !e.Begin? { assert AttemptOk(s, e.id, staleAfter); }
  }

  /** A reclaim replaces only a record whose process is dead and whose heartbeat is old enough. */
  lemma ReclaimReplacesOnlyStale(states: seq<State>, events: seq<Event>, staleAfter: int, n: nat)
    requires Execution(states, events, staleAfter) && n < |events| && events[n].HelperRename?
    ensures states[n].file.Written? && states[n].file.lease.pid in states[n].dead
    ensures states[n].file.lease.heartbeat + staleAfter <= states[n].now
    ensures forall a :: !LiveHolder(states[n], a)
  {
    var s := states[n];
    ExecutionKeepsInv(states, events, staleAfter, n);
    assert AttemptOk(s, events[n].id, staleAfter);
    forall a ensures !LiveHolder(s, a) {
      assert a in s.attempts ==> AttemptOk(s, a, staleAfter);
    }
  }

  /** `assertCredentialStartupLease` */
  predicate AssertLease(file: File, id: Id, ownerPid: Pid) {
    Carries(file, id, ownerPid)
  }

  /** A child that passes the assertion for an instance shares the lease with no other live holder. */
  lemma AssertionExcludesOthers(states: seq<State>, events: seq<Event>, staleAfter: int, n: nat, id: Id, pid: Pid,
      a: Id)
    requires Execution(states, events, staleAfter) && n < |states|
    requires AssertLease(states[n].file, id, pid) && LiveHolder(states[n], a)
    ensures a == id
  {
    ExecutionKeepsInv(states, events, staleAfter, n);
    assert AttemptOk(states[n], a, staleAfter);
  }

  /** The assertion is exactly that the file holds a complete record of this instance and process, and what a
    * live holder starts always passes it. */
  lemma AssertionExactly(states: seq<State>, events: seq<Event>, staleAfter: int, n: nat, id: Id, pid: Pid)
    requires Execution(states, events, staleAfter) && n < |states|
    ensures AssertLease(states[n].file, id, pid)
      <==> exists heartbeat :: states[n].file == Written(Lease(id, pid, heartbeat))
    ensures LiveHolder(states[n], id) && states[n].attempts[id].pid == pid ==> AssertLease(states[n].file, id, pid)
  {
    ExecutionKeepsInv(states, events, staleAfter, n);
    if LiveHolder(states[n], id) { assert AttemptOk(states[n], id, staleAfter); }
    var file := states[n].file;
    if file.Written? { assert file == Written(Lease(file.lease.id, file.lease.pid, file.lease.heartbeat)); }
    hide Inv, Execution, AttemptOk;
  }

  /** Nobody can have a step of their own once the creator of an incomplete file has died: it is never
      replaced, and no acquisition that does not already hold succeeds. */
  predicate Abandoned(s: State) {
    && s.file.Partial?
    && (s.file.creator in s.attempts ==>
          s.attempts[s.file.creator].pid in s.dead || !s.attempts[s.file.creator].phase.Creating?)
    && forall id :: id in s.attempts ==> !LiveHolder(s, id) && !s.attempts[id].helper.Verified?
  }

  lemma AbandonedStep(s: State, e: Event, staleAfter: int)
    requires Inv(s, staleAfter) && Enabled(s, e) && Abandoned(s)
    requires e.Begin? ==> e.id != s.file.creator
    ensures Abandoned(Apply(s, e, staleAfter)) && Apply(s, e, staleAfter).file == s.file
  {
    var t := Apply(s, e, staleAfter);
    if !e.Crash? && !e.Tick? && !e.Begin? { assert AttemptOk(s, e.id, staleAfter); }
    forall id | id in t.attempts ensures !LiveHolder(t, id) && !t.attempts[id].helper.Verified? {
      if id in s.attempts { assert AttemptOk(s, id, staleAfter) && !LiveHolder(s, id); }
    }
  }

  lemma ExecutionStep(states: seq<State>, events: seq<Event>, staleAfter: int, k: nat)
    requires Execution(states, events, staleAfter) && k + 1 < |states|
    ensures k < |events|
      && Enabled(states[k], events[k])
      && states[k + 1] == Apply(states[k], events[k], staleAfter)
  {
  }

  lemma AttemptsRemain(s: State, e: Event, staleAfter: int, id: Id)
    requires Enabled(s, e) && id in s.attempts
    ensures id in Apply(s, e, staleAfter).attempts
  {
  }

  lemma AbandonedHasNoHolder(s: State)
    requires Abandoned(s)
    ensures forall id :: !LiveHolder(s, id)
  {
  }

  /** Fail closed: an incomplete lease file left by a crash blocks every later acquisition. */
  lemma {:induction false} CrashedCreationBlocksForever(states: seq<State>, events: seq<Event>, staleAfter: int,
      m: nat, n: nat)
    requires Execution(states, events, staleAfter) && m <= n < |states|
    requires Abandoned(states[m]) && states[m].file.creator in states[m].attempts
    ensures states[n].file == states[m].file && Abandoned(states[n])
    ensures states[m].file.creator in states[n].attempts
    ensures forall id :: !LiveHolder(states[n], id)
    decreases n
  {
    if m < n {
      CrashedCreationBlocksForever(states, events, staleAfter, m, n - 1);
      ExecutionKeepsInv(states, events, staleAfter, n - 1);
      ExecutionStep(states, events, staleAfter, n - 1);
      var s, e := states[n - 1], events[n - 1];
      assert e.Begin? ==> e.id != s.file.creator;
      hide Inv, Execution, Enabled, Apply, Abandoned, LiveHolder;
      AbandonedStep(s, e, staleAfter);
      AttemptsRemain(s, e, staleAfter, s.file.creator);
    }
    hide Inv, Execution, Enabled, Apply, Abandoned, LiveHolder;
    AbandonedHasNoHolder(states[n]);
  }

  /** Such a file does come about: a process opens the free path and dies before the record is complete. */
  lemma CreationCanCrash(s: State, id: Id, pid: Pid, staleAfter: int) returns (states: seq<State>, events: seq<Event>)
    requires Init(s) && s.file.Absent? && pid !in s.dead
    ensures Execution(states, events, staleAfter) && |states| == 4 && states[0] == s
    ensures Abandoned(states[3]) && states[3].file == Partial(id) && id in states[3].attempts
  {
    var s1 := Apply(s, Begin(id, pid), staleAfter);
    var s2 := Apply(s1, OpenExclusive(id), staleAfter);
    states := [s, s1, s2, Apply(s2, Crash(pid), staleAfter)];
    events := [Begin(id, pid), OpenExclusive(id), Crash(pid)];
  }

  // ----- recovery is possible -----

  predicate AllEnabled(s: State, events: seq<Event>, staleAfter: int)
    decreases |events|
  {
    |events| == 0 || (Enabled(s, events[0]) && AllEnabled(Apply(s, events[0], staleAfter), events[1..], staleAfter))
  }

  function ApplyAll(s: State, events: seq<Event>, staleAfter: int): State
    requires AllEnabled(s, events, staleAfter)
    decreases |events|
  {
    if |events| == 0 then s else ApplyAll(Apply(s, events[0], staleAfter), events[1..], staleAfter)
  }

  lemma OneMore(s: State, e: Event, events: seq<Event>, staleAfter: int)
    requires Enabled(s, e) && AllEnabled(Apply(s, e, staleAfter), events, staleAfter)
    ensures AllEnabled(s, [e] + events, staleAfter)
    ensures ApplyAll(s, [e] + events, staleAfter) == ApplyAll(Apply(s, e, staleAfter), events, staleAfter)
  {
    assert ([e] + events)[1..] == events;
  }

  lemma {:induction false} TwoParts(s: State, front: seq<Event>, back: seq<Event>, staleAfter: int)
    requires AllEnabled(s, front, staleAfter)
      && AllEnabled(ApplyAll(s, front, staleAfter), back, staleAfter)
    ensures AllEnabled(s, front + back, staleAfter)
    ensures ApplyAll(s, front + back, staleAfter) == ApplyAll(ApplyAll(s, front, staleAfter), back, staleAfter)
    decreases |front|
  {
    if |front| == 0 {
      assert front + back == back;
    } else {
      assert front + back == [front[0]] + (front[1..] + back);
      TwoParts(Apply(s, front[0], staleAfter), front[1..], back, staleAfter);
      OneMore(s, front[0], front[1..] + back, staleAfter);
    }
  }

  function Approach(id: Id, pid: Pid): seq<Event> {
    [Begin(id, pid)] + ([OpenExclusive(id)] + ([Observe(id)] + ([Judge(id)] + [])))
  }

  function TakeOver(id: Id): seq<Event> {
    [HelperLock(id)] + ([HelperVerify(id)] + ([HelperRename(id)] + ([HelperExit(id)] + ([Collect(id)] + []))))
  }

  /** An acquisition whose helper is about to ask for the native lock. */
  predicate AtTheLock(s: State, id: Id, pid: Pid, staleAfter: int) {
    && s.file.Written? && Stale(s, s.file.lease, staleAfter)
    && id in s.attempts && pid !in s.dead && s.lock == {}
    && s.attempts[id].pid == pid && s.attempts[id].phase.Reclaiming?
    && s.attempts[id].helper == Queued(s.file.lease)
  }

  lemma ApproachReachesTheLock(s: State, id: Id, pid: Pid, staleAfter: int)
    requires id !in s.attempts && pid !in s.dead && s.lock == {}
    requires s.file.Written? && Stale(s, s.file.lease, staleAfter)
    ensures AllEnabled(s, Approach(id, pid), staleAfter)
    ensures AtTheLock(ApplyAll(s, Approach(id, pid), staleAfter), id, pid, staleAfter)
  {
    var s1 := Apply(s, Begin(id, pid), staleAfter);
    var s2 := Apply(s1, OpenExclusive(id), staleAfter);
    var s3 := Apply(s2, Observe(id), staleAfter);
    OneMore(s3, Judge(id), [], staleAfter);
    OneMore(s2, Observe(id), [Judge(id)] + [], staleAfter);
    OneMore(s1, OpenExclusive(id), [Observe(id)] + ([Judge(id)] + []), staleAfter);
    OneMore(s, Begin(id, pid), [OpenExclusive(id)] + ([Observe(id)] + ([Judge(id)] + [])), staleAfter);
  }

  lemma TakeOverHolds(s: State, id: Id, pid: Pid, staleAfter: int)
    requires AtTheLock(s, id, pid, staleAfter)
    ensures AllEnabled(s, TakeOver(id), staleAfter)
    ensures var t := ApplyAll(s, TakeOver(id), staleAfter); LiveHolder(t, id) && Carries(t.file, id, pid)
  {
    var s1 := Apply(s, HelperLock(id), staleAfter);
    var s2 := Apply(s1, HelperVerify(id), staleAfter);
    var s3 := Apply(s2, HelperRename(id), staleAfter);
    var s4 := Apply(s3, HelperExit(id), staleAfter);
    OneMore(s4, Collect(id), [], staleAfter);
    OneMore(s3, HelperExit(id), [Collect(id)] + [], staleAfter);
    OneMore(s2, HelperRename(id), [HelperExit(id)] + ([Collect(id)] + []), staleAfter);
    OneMore(s1, HelperVerify(id), [HelperRename(id)] + ([HelperExit(id)] + ([Collect(id)] + [])), staleAfter);
    OneMore(s, HelperLock(id),
            [HelperVerify(id)] + ([HelperRename(id)] + ([HelperExit(id)] + ([Collect(id)] + []))), staleAfter);
  }

  /** Left alone, an acquisition takes over the lease of any dead process whose heartbeat is old enough. */
  lemma StaleLeaseIsTakenOver(s: State, id: Id, pid: Pid, staleAfter: int)
    requires id !in s.attempts && pid !in s.dead && s.lock == {}
    requires s.file.Written? && s.file.lease.pid in s.dead && s.file.lease.heartbeat + staleAfter <= s.now
    ensures AllEnabled(s, Approach(id, pid) + TakeOver(id), staleAfter)
    ensures var t := ApplyAll(s, Approach(id, pid) + TakeOver(id), staleAfter);
            LiveHolder(t, id) && Carries(t.file, id, pid)
  {
    ApproachReachesTheLock(s, id, pid, staleAfter);
    TakeOverHolds(ApplyAll(s, Approach(id, pid), staleAfter), id, pid, staleAfter);
    TwoParts(s, Approach(id, pid), TakeOver(id), staleAfter);
  }

  // ----- when the lease can still be had -----

  lemma {:induction false} FreshNat(used: set<nat>) returns (n: nat)
    ensures n !in used && forall m :: m in used ==> m < n
    decreases |used|
  {
    if m :| m in used {
      var above := FreshNat(used - {m});
      n := if above > m then above else m + 1;
      assert forall k :: k in used ==> k == m || k in used - {m};
    } else {
      n := 0;
    }
  }

  /** Some continuation puts a live process in possession of the lease. */
  ghost predicate Obtainable(s: State, staleAfter: int) {
    exists more, id :: AllEnabled(s, more, staleAfter) && LiveHolder(ApplyAll(s, more, staleAfter), id)
  }

  lemma {:induction false} AbandonedStays(s: State, more: seq<Event>, staleAfter: int)
    requires Inv(s, staleAfter) && Abandoned(s) && s.file.creator in s.attempts && AllEnabled(s, more, staleAfter)
    ensures Abandoned(ApplyAll(s, more, staleAfter))
    decreases |more|
  {
    if |more| > 0 {
      hide Abandoned, Inv;
      var t := Apply(s, more[0], staleAfter);
      StepKeepsInv(s, more[0], staleAfter);
      AbandonedStep(s, more[0], staleAfter);
      AttemptsRemain(s, more[0], staleAfter, s.file.creator);
      AbandonedStays(t, more[1..], staleAfter);
    }
  }

  lemma Obtained(s: State, e: Event, staleAfter: int)
    requires Enabled(s, e) && Obtainable(Apply(s, e, staleAfter), staleAfter)
    ensures Obtainable(s, staleAfter)
  {
    var t := Apply(s, e, staleAfter);
    var more, id :| AllEnabled(t, more, staleAfter) && LiveHolder(ApplyAll(t, more, staleAfter), id);
    hide Enabled, Apply, LiveHolder;
    OneMore(s, e, more, staleAfter);
  }

  lemma HeldIsObtainable(s: State, id: Id, staleAfter: int)
    requires LiveHolder(s, id)
    ensures Obtainable(s, staleAfter)
  {
    assert AllEnabled(s, [], staleAfter) && ApplyAll(s, [], staleAfter) == s;
  }

  lemma CreationFinishes(s: State, id: Id, staleAfter: int)
    requires id in s.attempts && s.attempts[id].pid !in s.dead && s.attempts[id].phase.Creating?
    ensures Obtainable(s, staleAfter)
  {
    var t := Apply(s, FinishWrite(id), staleAfter);
    HeldIsObtainable(Apply(t, Return(id), staleAfter), id, staleAfter);
    Obtained(t, Return(id), staleAfter);
    Obtained(s, FinishWrite(id), staleAfter);
  }

  lemma FreePathIsObtainable(s: State, staleAfter: int)
    requires s.file.Absent?
    ensures Obtainable(s, staleAfter)
  {
    var id := FreshNat(s.attempts.Keys);
    var pid := FreshNat(s.dead);
    var t := Apply(s, Begin(id, pid), staleAfter);
    CreationFinishes(Apply(t, OpenExclusive(id), staleAfter), id, staleAfter);
    hide Obtainable;
    Obtained(t, OpenExclusive(id), staleAfter);
    Obtained(s, Begin(id, pid), staleAfter);
  }

  /** Whoever wrote the record, once that process is dead and the heartbeat old enough the lease is taken over. */
  lemma RecordIsObtainable(s: State, staleAfter: int)
    requires s.file.Written? && s.lock == {}
    ensures Obtainable(s, staleAfter)
  {
    var l := s.file.lease;
    var time := if s.now >= l.heartbeat + staleAfter then s.now else l.heartbeat + staleAfter;
    var t := Apply(s, Crash(l.pid), staleAfter);
    var u := Apply(t, Tick(time), staleAfter);
    var id := FreshNat(u.attempts.Keys);
    var pid := FreshNat(u.dead);
    StaleLeaseIsTakenOver(u, id, pid, staleAfter);
    hide AllEnabled, ApplyAll, LiveHolder, Approach, TakeOver;
    Obtained(t, Tick(time), staleAfter);
    Obtained(s, Crash(l.pid), staleAfter);
  }

  lemma LockIsFreed(s: State, h: Id, staleAfter: int)
    requires Inv(s, staleAfter) && h in s.lock && s.file.Written?
    ensures Obtainable(s, staleAfter)
  {
    assert AttemptOk(s, h, staleAfter) && s.lock == {h};
    var t := Apply(s, HelperCrash(h), staleAfter);
    hide Obtainable, Inv, AttemptOk;
    RecordIsObtainable(t, staleAfter);
    Obtained(s, HelperCrash(h), staleAfter);
  }

  /** At any point of any execution a live process can still come to hold the lease if and only if the path does
    * not hold an incomplete file whose creator is gone. */
  lemma LeaseObtainableExactly(states: seq<State>, events: seq<Event>, staleAfter: int, n: nat)
    requires Execution(states, events, staleAfter) && n < |states|
    requires states[n].file.Partial? ==> states[n].file.creator in states[n].attempts
    ensures Obtainable(states[n], staleAfter) <==> !Abandoned(states[n])
  {
    var s := states[n];
    ExecutionKeepsInv(states, events, staleAfter, n);
    if Abandoned(s) {
      forall more, id | AllEnabled(s, more, staleAfter) ensures !LiveHolder(ApplyAll(s, more, staleAfter), id) {
        hide Inv, AllEnabled, ApplyAll, Abandoned, LiveHolder;
        AbandonedStays(s, more, staleAfter);
        AbandonedHasNoHolder(ApplyAll(s, more, staleAfter));
      }
    } else {
      match s.file
      case Absent => FreePathIsObtainable(s, staleAfter);
      case Partial(creator) => PartialIsObtainable(s, staleAfter);
      case Written(_) =>
        if h :| h in s.lock { LockIsFreed(s, h, staleAfter); } else { RecordIsObtainable(s, staleAfter); }
    }
  }

  lemma PartialIsObtainable(s: State, staleAfter: int)
    requires Inv(s, staleAfter) && s.file.Partial? && !Abandoned(s) && s.file.creator in s.attempts
    ensures Obtainable(s, staleAfter)
  {
    forall id | id in s.attempts ensures !LiveHolder(s, id) && !s.attempts[id].helper.Verified? {
      assert AttemptOk(s, id, staleAfter);
    }
    CreationFinishes(s, s.file.creator, staleAfter);
  }

  // ----- the object returned to the holder -----

  class LeaseFile {
    var content: File

    constructor (content: File)
      ensures this.content == content
    {
      this.content := content;
    }
  }

  /** `ownedLease`: its heartbeat and stop each run to completion within one process. */
  class OwnedLease {
    const path: LeaseFile
    var current: Lease
    var stopped: bool
    var heartbeatError: bool

    constructor (path: LeaseFile, initial: Lease)
      ensures this.path == path && current == initial && !stopped && !heartbeatError
    {
      this.path := path;
      current := initial;
      stopped := false;
      heartbeatError := false;
    }

    /** Refreshes the record only when the file still carries this instance; never after stop. */
    method Heartbeat(now: int) returns (ok: bool)
      modifies this`current, path
      ensures ok == (!stopped && Carries(old(path.content), old(current.id), old(current.pid)))
      ensures current == if ok then old(current).(heartbeat := now) else old(current)
      ensures path.content == if ok then Written(current) else old(path.content)
    {
      if stopped { return false; }
      var observed := path.content;
      if !observed.Written? || observed.lease.id != current.id || observed.lease.pid != current.pid { return false; }
      current := current.(heartbeat := now);
      path.content := Written(current);
      return true;
    }

    /** The timer remembers a failed heartbeat; a later success does not clear it. */
    method OnTimer(now: int)
      modifies this`current, this`heartbeatError, path
      ensures heartbeatError ==
              (old(heartbeatError) || stopped || !Carries(old(path.content), old(current.id), old(current.pid)))
      ensures current.id == old(current.id) && current.pid == old(current.pid)
      ensures path.content == old(path.content) || (path.content == Written(current)
          && Carries(old(path.content), current.id, current.pid))
    {
      var ok := Heartbeat(now);
      if !ok { heartbeatError := true; }
    }

    /** Removes the file only when no heartbeat failed and it still carries this instance. */
    method Stop() returns (ok: bool)
      modifies this`stopped, path
      ensures stopped
      ensures old(stopped) ==> ok && path.content == old(path.content)
      ensures !old(stopped) ==> ok == (!heartbeatError && Carries(old(path.content), current.id, current.pid))
      ensures !old(stopped) ==> path.content == if ok then Absent else old(path.content)
    {
      if stopped { return true; }
      stopped := true;
      if heartbeatError { return false; }
      var observed := path.content;
      if !observed.Written? || observed.lease.id != current.id || observed.lease.pid != current.pid { return false; }
      path.content := Absent;
      return true;
    }
  }

  /** Run without interference, the protocol steps of a heartbeat do what `Heartbeat` does: they refresh the record of a
    * file that carries the instance, and leave any other file and the process as they are. */
  lemma HeartbeatIsTwoSteps(s: State, id: Id, staleAfter: int)
    requires Enabled(s, HeartbeatRead(id))
    ensures var t := Apply(s, HeartbeatRead(id), staleAfter);
      if Carries(s.file, id, s.attempts[id].pid)
      then Enabled(t, HeartbeatRename(id))
           && Apply(t, HeartbeatRename(id), staleAfter) == s.(file := Written(s.file.lease.(heartbeat := s.now)))
      else t == s
  {
    var t := Apply(s, HeartbeatRead(id), staleAfter);
    if Carries(s.file, id, s.attempts[id].pid) {
      assert Apply(t, HeartbeatRename(id), staleAfter).attempts == s.attempts;
    }
  }

  /** And those of a stop do what `Stop` does without a heartbeat error: the process is done with the lease
    * either way, and the file goes exactly when it carries the instance. */
  lemma StopIsTwoSteps(s: State, id: Id, staleAfter: int)
    requires Enabled(s, StopRead(id))
    ensures var t := Apply(s, StopRead(id), staleAfter);
      if Carries(s.file, id, s.attempts[id].pid)
      then Enabled(t, StopUnlink(id)) && Apply(t, StopUnlink(id), staleAfter) == SetPhase(s, id, Over).(file := Absent)
      else t == SetPhase(s, id, Over)
  {
    var t := Apply(s, StopRead(id), staleAfter);
    if Carries(s.file, id, s.attempts[id].pid) {
      assert Apply(t, StopUnlink(id), staleAfter).attempts == SetPhase(s, id, Over).attempts;
    }
  }
}
