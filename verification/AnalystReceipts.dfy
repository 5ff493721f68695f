module AnalystReceipts {
  // The Codex Analyst wrapper: start, close and turn as crashable steps over durable receipts.
  // A receipt is reserved by exclusive create before the external command runs, so that every
  // external effect happens at most once however many wrapper processes run or crash.

  import opened Options

  type Pid = nat
  type Digest = nat      // SHA-256 as an injective function: equal digests mean equal contents
  type Session = nat
  type Response = nat

  /** A receipt path that exists: still being written (or left so by a crash), or complete. */
  datatype File<+R> = Incomplete | Receipt(receipt: R)

  // ----- starts and closes -----

  datatype StartRequest = StartRequest(job: string, taskDigest: Digest, requestDigest: Digest)
  datatype CloseRequest = CloseRequest(job: string, taskDigest: Digest, session: Option<Session>)
  datatype StartStatus = Starting | Active | Unavailable | Closing | Closed | CloseFailed
  datatype StartReceipt = StartReceipt(request: StartRequest, status: StartStatus, session: Option<Session>)

  /** What the external command came back with. */
  datatype StartOutcome = StartOutcome(ready: bool, session: Option<Session>)

  datatype StartProc =
    | Reading(request: StartRequest)
    | Reserving(request: StartRequest)
    | Writing(request: StartRequest)
    | Reserved(request: StartRequest)
    | Dispatched(request: StartRequest, outcome: StartOutcome)
    | Replying(request: StartRequest, session: Session)
    | CloseReading(close: CloseRequest)
    | CloseMarking(receipt: StartReceipt)
    | CloseDeleting(receipt: StartReceipt)
    | CloseRecording(receipt: StartReceipt, deleted: bool)
    | Finished

  datatype StartReply = StartReply(request: StartRequest, session: Session)

  datatype Starts = Starts(
    files: map<string, File<StartReceipt>>,
    procs: map<Pid, StartProc>,
    // history: who created a path, what was dispatched, what was answered
    owner: map<string, Pid>,
    run: multiset<string>,
    replies: set<StartReply>)

  datatype StartEvent =
    | Spawn(pid: Pid, proc: StartProc)
    | Step(pid: Pid)
    | Run(pid: Pid, outcome: StartOutcome)
    | Delete(pid: Pid, deleted: bool)
    | GiveUp(pid: Pid)     // an I/O error or a crash at any point

  predicate StartEnabled(s: Starts, e: StartEvent) {
    match e
    case Spawn(pid, proc) => pid !in s.procs && (proc.Reading? || proc.CloseReading?)
    case Run(pid, _) => pid in s.procs && s.procs[pid].Reserved?
    case Delete(pid, _) => pid in s.procs && s.procs[pid].CloseDeleting?
    case GiveUp(pid) => pid in s.procs
    case Step(pid) =>
      pid in s.procs && !s.procs[pid].Reserved? && !s.procs[pid].CloseDeleting? && !s.procs[pid].Finished?
  }

  function Go(s: Starts, pid: Pid, p: StartProc): Starts {
    s.(procs := s.procs[pid := p])
  }

  function Put(s: Starts, r: StartReceipt): Starts {
    s.(files := s.files[r.request.job := Receipt(r)])
  }

  /** `existingStart`: only an active receipt of the same request is answered. */
  function ExistingStart(r: StartReceipt, request: StartRequest): StartProc {
    if r.request == request && r.status.Active? && r.session.Some? then Replying(request, r.session.value) else Finished
  }

  predicate MayClose(r: StartReceipt, c: CloseRequest) {
    r.request.job == c.job && r.request.taskDigest == c.taskDigest && (c.session.Some? ==> c.session == r.session)
    && !r.status.Closed? && r.session.Some?
  }

  function StartApply(s: Starts, e: StartEvent): Starts
    requires StartEnabled(s, e)
  {
    match e
    case Spawn(pid, proc) => Go(s, pid, proc)
    case GiveUp(pid) => Go(s, pid, Finished)
    case Run(pid, outcome) =>
      var r := s.procs[pid].request;
      Go(s, pid, Dispatched(r, outcome)).(run := s.run + multiset{r.job})
    case Delete(pid, deleted) => Go(s, pid, CloseRecording(s.procs[pid].receipt, deleted))
    case Step(pid) => StartStep(s, pid, s.procs[pid])
  }

  function StartStep(s: Starts, pid: Pid, p: StartProc): Starts {
    match p
    case Reading(r) =>
      if r.job !in s.files then Go(s, pid, Reserving(r))
      else if s.files[r.job].Incomplete? then Go(s, pid, Finished)
      else Go(s, pid, ExistingStart(s.files[r.job].receipt, r))
    case Reserving(r) =>
      if r.job in s.files then Go(s, pid, Finished)
      else Go(s, pid, Writing(r)).(files := s.files[r.job := Incomplete], owner := s.owner[r.job := pid])
    case Writing(r) => Put(Go(s, pid, Reserved(r)), StartReceipt(r, Starting, None))
    case Dispatched(r, outcome) =>
      if outcome.ready && outcome.session.Some?
      then Put(Go(s, pid, Replying(r, outcome.session.value)), StartReceipt(r, Active, outcome.session))
      else Put(Go(s, pid, Finished), StartReceipt(r, Unavailable, outcome.session))
    case Replying(r, session) => Go(s, pid, Finished).(replies := s.replies + {StartReply(r, session)})
    case CloseReading(c) =>
      if c.job in s.files && s.files[c.job].Receipt? && MayClose(s.files[c.job].receipt, c)
      then Go(s, pid, CloseMarking(s.files[c.job].receipt))
      else Go(s, pid, Finished)
    case CloseMarking(r) => Put(Go(s, pid, CloseDeleting(r)), r.(status := Closing))
    case CloseRecording(r, deleted) =>
      Put(Go(s, pid, Finished), r.(status := if deleted then Closed else CloseFailed))
    case _ => s
  }

  predicate HasSession(s: Starts, job: string) {
    job in s.files && s.files[job].Receipt? && s.files[job].receipt.session.Some?
  }

  /** The job's receipt is complete, for this request, and names this session. */
  predicate Recorded(s: Starts, r: StartRequest, session: Session) {
    HasSession(s, r.job) && s.files[r.job].receipt.request == r && s.files[r.job].receipt.session == Some(session)
  }

  predicate SessionOf(s: Starts, job: string, session: Session) {
    HasSession(s, job) && s.files[job].receipt.session == Some(session)
  }

  predicate Owns(s: Starts, pid: Pid, job: string) {
    job in s.files && job in s.owner && s.owner[job] == pid
  }

  /** What a process's next step relies on. */
  predicate StartProcOk(s: Starts, pid: Pid, p: StartProc) {
    match p
    case Writing(r) => Owns(s, pid, r.job) && s.files[r.job].Incomplete? && s.run[r.job] == 0
    case Reserved(r) => Owns(s, pid, r.job) && s.files[r.job] == Receipt(StartReceipt(r, Starting, None))
        && s.run[r.job] == 0
    case Dispatched(r, _) => Owns(s, pid, r.job) && s.files[r.job] == Receipt(StartReceipt(r, Starting, None))
    case Replying(r, session) => Recorded(s, r, session)
    case CloseMarking(r) => r.session.Some? && Recorded(s, r.request, r.session.value)
    case CloseDeleting(r) => r.session.Some? && Recorded(s, r.request, r.session.value)
    case CloseRecording(r, _) => r.session.Some? && Recorded(s, r.request, r.session.value)
    case _ => true
  }

  ghost predicate StartFilesOk(s: Starts) {
    && s.owner.Keys == s.files.Keys
    && (forall j :: s.run[j] <= 1)
    && (forall j :: j !in s.files ==> s.run[j] == 0)
    && (forall j :: j in s.files && s.files[j].Receipt? ==> s.files[j].receipt.request.job == j)
  }

  ghost predicate StartInv(s: Starts) {
    && StartFilesOk(s)
    && (forall pid :: pid in s.procs ==> StartProcOk(s, pid, s.procs[pid]))
    && (forall x :: x in s.replies ==> Recorded(s, x.request, x.session))
  }

  predicate KeepsSession(s: Starts, t: Starts, job: string)
    requires HasSession(s, job)
  {
    && HasSession(t, job)
    && t.files[job].receipt.request == s.files[job].receipt.request
    && t.files[job].receipt.session == s.files[job].receipt.session
  }

  /** What one step of `pid` leaves alone: a path is kept by everyone but the process that created it,
    * and once a receipt names a session, its request and session are kept by all. */
  ghost predicate StartFrame(s: Starts, t: Starts, pid: Pid) {
    && (forall j :: j in s.files ==> j in t.files)
    && (forall j :: j in s.owner ==> j in t.owner && t.owner[j] == s.owner[j])
    && (forall j :: j in s.files && !HasSession(s, j) && !Owns(s, pid, j) ==> t.files[j] == s.files[j])
    && (forall j :: j in s.files && !Owns(s, pid, j) ==> t.run[j] == s.run[j])
    && (forall j :: HasSession(s, j) ==> KeepsSession(s, t, j))
    && (forall q :: q != pid ==> (q in t.procs <==> q in s.procs))
    && (forall q :: q != pid && q in s.procs ==> t.procs[q] == s.procs[q])
  }

  lemma ReserveFrame(s: Starts, pid: Pid, job: string, t: Starts)
    requires StartFilesOk(s) && job !in s.files
    requires t.files == s.files[job := Incomplete] && t.owner == s.owner[job := pid] && t.run == s.run
    requires pid in t.procs && t.procs == s.procs[pid := t.procs[pid]]
    ensures StartFrame(s, t, pid) && StartFilesOk(t)
  {
  }

  lemma PutFrame(s: Starts, pid: Pid, r: StartReceipt, t: Starts)
    requires StartFilesOk(s)
    requires (Owns(s, pid, r.request.job) && !HasSession(s, r.request.job))
          || (r.session.Some? && Recorded(s, r.request, r.session.value))
    requires t.files == s.files[r.request.job := Receipt(r)] && t.owner == s.owner && t.run == s.run
    requires pid in t.procs && t.procs == s.procs[pid := t.procs[pid]]
    ensures StartFrame(s, t, pid) && StartFilesOk(t)
  {
  }

  lemma RunFrame(s: Starts, pid: Pid, job: string, t: Starts)
    requires StartFilesOk(s) && Owns(s, pid, job) && s.run[job] == 0
    requires t.files == s.files && t.owner == s.owner && t.run == s.run + multiset{job}
    requires pid in t.procs && t.procs == s.procs[pid := t.procs[pid]]
    ensures StartFrame(s, t, pid) && StartFilesOk(t)
  {
  }

  lemma ProcFrame(s: Starts, pid: Pid, t: Starts)
    requires StartFilesOk(s)
    requires t.files == s.files && t.owner == s.owner && t.run == s.run
    requires pid in t.procs && t.procs == s.procs[pid := t.procs[pid]]
    ensures StartFrame(s, t, pid) && StartFilesOk(t)
  {
  }

  lemma StartStepFrame(s: Starts, e: StartEvent)
    requires StartFilesOk(s)
      && StartEnabled(s, e)
      && (e.Spawn? || StartProcOk(s, e.pid, s.procs[e.pid]))
    ensures StartFrame(s, StartApply(s, e), e.pid) && StartFilesOk(StartApply(s, e))
  {
    hide StartFilesOk, StartFrame;
    var t := StartApply(s, e);
    if e.Run? {
      RunFrame(s, e.pid, s.procs[e.pid].request.job, t);
    } else if e.Step? {
      match s.procs[e.pid]
      case Reserving(r) => if r.job in s.files { ProcFrame(s, e.pid, t); } else { ReserveFrame(s, e.pid, r.job, t); }
      case Writing(r) => PutFrame(s, e.pid, StartReceipt(r, Starting, None), t);
      case Dispatched(r, outcome) => PutFrame(s, e.pid, t.files[r.job].receipt, t);
      case CloseMarking(r) => PutFrame(s, e.pid, t.files[r.request.job].receipt, t);
      case CloseRecording(r, _) => PutFrame(s, e.pid, t.files[r.request.job].receipt, t);
      case _ => ProcFrame(s, e.pid, t);
    } else {
      ProcFrame(s, e.pid, t);
    }
  }

  lemma OpenStepOk(s: Starts, pid: Pid, p: StartProc)
    requires StartProcOk(s, pid, p)
      && (p.Reading? || p.Reserving? || p.Writing? || p.Dispatched? || p.Replying?)
    requires p.Reserving? && p.request.job !in s.files ==> s.run[p.request.job] == 0
    ensures var t := StartStep(s, pid, p); pid in t.procs && StartProcOk(t, pid, t.procs[pid])
  {
  }

  lemma CloseStepOk(s: Starts, pid: Pid, p: StartProc)
    requires StartProcOk(s, pid, p) && (p.CloseReading? || p.CloseMarking? || p.CloseRecording?)
    requires p.CloseReading? && p.close.job in s.files && s.files[p.close.job].Receipt? ==>
      s.files[p.close.job].receipt.request.job == p.close.job
    ensures var t := StartStep(s, pid, p); pid in t.procs && StartProcOk(t, pid, t.procs[pid])
  {
  }

  lemma StartActorOk(s: Starts, e: StartEvent)
    requires StartFilesOk(s)
      && StartEnabled(s, e)
      && (e.Spawn? || StartProcOk(s, e.pid, s.procs[e.pid]))
    ensures var t := StartApply(s, e); e.pid in t.procs && StartProcOk(t, e.pid, t.procs[e.pid])
  {
    if e.Step? {
      var p := s.procs[e.pid];
      hide StartStep, StartProcOk;
      if p.CloseReading? || p.CloseMarking? || p.CloseRecording? {
        CloseStepOk(s, e.pid, p);
      } else {
        OpenStepOk(s, e.pid, p);
      }
    } else {
      hide StartFilesOk, StartStep;
    }
  }

  lemma StartReplyOk(s: Starts, e: StartEvent, x: StartReply)
    requires StartEnabled(s, e) && (e.Spawn? || StartProcOk(s, e.pid, s.procs[e.pid]))
    requires x in StartApply(s, e).replies
    ensures x in s.replies || Recorded(s, x.request, x.session)
  {
  }

  lemma StartOtherOk(s: Starts, t: Starts, actor: Pid, pid: Pid, p: StartProc)
    requires StartFrame(s, t, actor) && StartFilesOk(s) && pid != actor && StartProcOk(s, pid, p)
    ensures StartProcOk(t, pid, p)
  {
  }

  lemma RecordedStays(s: Starts, t: Starts, pid: Pid, request: StartRequest, session: Session)
    requires StartFrame(s, t, pid) && Recorded(s, request, session)
    ensures Recorded(t, request, session)
  {
    assert KeepsSession(s, t, request.job);
  }

  lemma StartKeepsInv(s: Starts, e: StartEvent)
    requires StartInv(s) && StartEnabled(s, e)
    ensures StartInv(StartApply(s, e)) && StartFrame(s, StartApply(s, e), e.pid)
  {
    var t := StartApply(s, e);
    StartStepFrame(s, e);
    StartActorOk(s, e);
    assert forall q :: q in t.procs && q != e.pid ==> q in s.procs && t.procs[q] == s.procs[q];
    hide StartApply, StartEnabled, StartFilesOk, StartFrame, StartProcOk, Recorded;
    forall x | x in t.replies ensures Recorded(t, x.request, x.session) {
      StartReplyOk(s, e, x);
      RecordedStays(s, t, e.pid, x.request, x.session);
    }
    forall pid | pid in t.procs ensures StartProcOk(t, pid, t.procs[pid]) {
      if pid != e.pid { StartOtherOk(s, t, e.pid, pid, s.procs[pid]); }
    }
  }

  // ----- turns -----

  datatype TurnKey = TurnKey(session: Session, incident: string, turn: nat)
  datatype TurnRequest = TurnRequest(key: TurnKey, job: string, taskDigest: Digest, evidenceDigest: Digest,
      requestDigest: Digest)
  datatype TurnStatus = Pending | Completed | Failed
  datatype TurnReceipt = TurnReceipt(request: TurnRequest, status: TurnStatus, response: Option<Response>)

  datatype TurnProc =
    | TurnChecking(request: TurnRequest)
    | TurnReading(request: TurnRequest)
    | TurnReserving(request: TurnRequest)
    | TurnWriting(request: TurnRequest)
    | TurnReserved(request: TurnRequest)
    | TurnDispatched(request: TurnRequest, answer: Option<Response>)
    | TurnReplying(request: TurnRequest, response: Response)
    | TurnFinished

  datatype TurnReply = TurnReply(request: TurnRequest, response: Response)

  datatype Turns = Turns(
    files: map<TurnKey, File<TurnReceipt>>,
    procs: map<Pid, TurnProc>,
    owner: map<TurnKey, Pid>,
    run: multiset<TurnKey>,
    replies: set<TurnReply>)

  datatype TurnEvent =
    | TurnSpawn(pid: Pid, request: TurnRequest)
    | TurnStep(pid: Pid)
    | TurnRun(pid: Pid, answer: Option<Response>)
    | TurnGiveUp(pid: Pid)

  predicate TurnEnabled(s: Turns, e: TurnEvent) {
    match e
    case TurnSpawn(pid, _) => pid !in s.procs
    case TurnRun(pid, _) => pid in s.procs && s.procs[pid].TurnReserved?
    case TurnGiveUp(pid) => pid in s.procs
    case TurnStep(pid) => pid in s.procs && !s.procs[pid].TurnReserved? && !s.procs[pid].TurnFinished?
  }

  /** `turn` needs the job's start receipt to be active for the same session and task. */
  predicate BoundToActiveStart(starts: Starts, t: TurnRequest) {
    SessionOf(starts, t.job, t.key.session)
    && var owner := starts.files[t.job].receipt; owner.status.Active? && owner.request.taskDigest == t.taskDigest
  }

  /** The replay branch of `turn`: only a completed receipt of the same request is answered. */
  function ExistingTurn(r: TurnReceipt, request: TurnRequest): TurnProc {
    if r.request == request && r.status.Completed? && r.response.Some? then TurnReplying(request, r.response.value)
        else TurnFinished
  }

  function TurnGo(s: Turns, pid: Pid, p: TurnProc): Turns {
    s.(procs := s.procs[pid := p])
  }

  function TurnPut(s: Turns, r: TurnReceipt): Turns {
    s.(files := s.files[r.request.key := Receipt(r)])
  }

  function TurnApply(starts: Starts, s: Turns, e: TurnEvent): Turns
    requires TurnEnabled(s, e)
  {
    match e
    case TurnSpawn(pid, request) => TurnGo(s, pid, TurnChecking(request))
    case TurnGiveUp(pid) => TurnGo(s, pid, TurnFinished)
    case TurnRun(pid, answer) =>
      var r := s.procs[pid].request;
      TurnGo(s, pid, TurnDispatched(r, answer)).(run := s.run + multiset{r.key})
    case TurnStep(pid) =>
      match s.procs[pid]
      case TurnChecking(r) => TurnGo(s, pid, if BoundToActiveStart(starts, r) then TurnReading(r) else TurnFinished)
      case TurnReading(r) =>
        if r.key !in s.files then TurnGo(s, pid, TurnReserving(r))
        else if s.files[r.key].Incomplete? then TurnGo(s, pid, TurnFinished)
        else TurnGo(s, pid, ExistingTurn(s.files[r.key].receipt, r))
      case TurnReserving(r) =>
        if r.key in s.files then TurnGo(s, pid, TurnFinished)
        else TurnGo(s, pid, TurnWriting(r)).(files := s.files[r.key := Incomplete], owner := s.owner[r.key := pid])
      case TurnWriting(r) => TurnPut(TurnGo(s, pid, TurnReserved(r)), TurnReceipt(r, Pending, None))
      case TurnDispatched(r, answer) =>
        if answer.Some? then TurnPut(TurnGo(s, pid, TurnReplying(r, answer.value)), TurnReceipt(r, Completed, answer))
        else TurnPut(TurnGo(s, pid, TurnFinished), TurnReceipt(r, Failed, None))
      case TurnReplying(r, response) => TurnGo(s, pid, TurnFinished).(replies := s.replies + {TurnReply(r, response)})
      case _ => s
  }

  predicate Answered(s: Turns, r: TurnRequest, response: Response) {
    r.key in s.files && s.files[r.key] == Receipt(TurnReceipt(r, Completed, Some(response)))
  }

  predicate OwnsTurn(s: Turns, pid: Pid, r: TurnRequest) {
    r.key in s.files && r.key in s.owner && s.owner[r.key] == pid
  }

  predicate TurnProcOk(starts: Starts, s: Turns, pid: Pid, p: TurnProc) {
    match p
    case TurnReading(r) => SessionOf(starts, r.job, r.key.session)
    case TurnReserving(r) => SessionOf(starts, r.job, r.key.session)
    case TurnWriting(r) =>
      SessionOf(starts, r.job, r.key.session) && OwnsTurn(s, pid, r) && s.files[r.key].Incomplete? && s.run[r.key] == 0
    case TurnReserved(r) =>
      SessionOf(starts, r.job, r.key.session) && OwnsTurn(s, pid, r)
      && s.files[r.key] == Receipt(TurnReceipt(r, Pending, None)) && s.run[r.key] == 0
    case TurnDispatched(r, _) => OwnsTurn(s, pid, r) && s.files[r.key] == Receipt(TurnReceipt(r, Pending, None))
    case TurnReplying(r, response) => Answered(s, r, response)
    case _ => true
  }

  ghost predicate TurnFilesOk(s: Turns) {
    && s.owner.Keys == s.files.Keys
    && (forall k :: s.run[k] <= 1)
    && (forall k :: k !in s.files ==> s.run[k] == 0)
    && (forall k :: k in s.files && s.files[k].Receipt? ==> s.files[k].receipt.request.key == k)
  }

  /** A session some start receipt names. */
  predicate Known(starts: Starts, session: Session) {
    exists j :: j in starts.files && SessionOf(starts, j, session)
  }

  ghost predicate TurnInv(starts: Starts, s: Turns) {
    && TurnFilesOk(s)
    && (forall pid :: pid in s.procs ==> TurnProcOk(starts, s, pid, s.procs[pid]))
    && (forall x :: x in s.replies ==> Answered(s, x.request, x.response))
    && (forall k :: s.run[k] > 0 ==> Known(starts, k.session))
  }

  ghost predicate TurnFrame(s: Turns, t: Turns, pid: Pid) {
    && (forall k :: k in s.files ==> k in t.files)
    && (forall k :: k in s.owner ==> k in t.owner && t.owner[k] == s.owner[k])
    && (forall k ::
         k in s.files && k in s.owner && s.owner[k] != pid ==> t.files[k] == s.files[k] && t.run[k] == s.run[k])
    && (forall k :: k in s.files && s.files[k].Receipt? && s.files[k].receipt.status.Completed?
         ==> t.files[k] == s.files[k])
    && (forall q :: q != pid ==> (q in t.procs <==> q in s.procs))
    && (forall q :: q != pid && q in s.procs ==> t.procs[q] == s.procs[q])
  }

  lemma TurnReserveFrame(s: Turns, pid: Pid, key: TurnKey, t: Turns)
    requires TurnFilesOk(s) && key !in s.files
    requires t.files == s.files[key := Incomplete] && t.owner == s.owner[key := pid] && t.run == s.run
    requires pid in t.procs && t.procs == s.procs[pid := t.procs[pid]]
    ensures TurnFrame(s, t, pid) && TurnFilesOk(t)
  {
  }

  lemma TurnPutFrame(s: Turns, pid: Pid, r: TurnReceipt, t: Turns)
    requires TurnFilesOk(s) && OwnsTurn(s, pid, r.request)
    requires s.files[r.request.key].Incomplete? || !s.files[r.request.key].receipt.status.Completed?
    requires t.files == s.files[r.request.key := Receipt(r)] && t.owner == s.owner && t.run == s.run
    requires pid in t.procs && t.procs == s.procs[pid := t.procs[pid]]
    ensures TurnFrame(s, t, pid) && TurnFilesOk(t)
  {
  }

  lemma TurnRunFrame(s: Turns, pid: Pid, r: TurnRequest, t: Turns)
    requires TurnFilesOk(s) && OwnsTurn(s, pid, r) && s.run[r.key] == 0
    requires t.files == s.files && t.owner == s.owner && t.run == s.run + multiset{r.key}
    requires pid in t.procs && t.procs == s.procs[pid := t.procs[pid]]
    ensures TurnFrame(s, t, pid) && TurnFilesOk(t)
  {
  }

  lemma TurnProcFrame(s: Turns, pid: Pid, t: Turns)
    requires TurnFilesOk(s)
    requires t.files == s.files && t.owner == s.owner && t.run == s.run
    requires pid in t.procs && t.procs == s.procs[pid := t.procs[pid]]
    ensures TurnFrame(s, t, pid) && TurnFilesOk(t)
  {
  }

  lemma TurnStepFrame(starts: Starts, s: Turns, e: TurnEvent)
    requires TurnFilesOk(s)
      && TurnEnabled(s, e)
      && (e.TurnSpawn? || TurnProcOk(starts, s, e.pid, s.procs[e.pid]))
    ensures TurnFilesOk(TurnApply(starts, s, e)) && TurnFrame(s, TurnApply(starts, s, e), e.pid)
  {
    hide TurnFilesOk, TurnFrame;
    var t := TurnApply(starts, s, e);
    if e.TurnRun? {
      TurnRunFrame(s, e.pid, s.procs[e.pid].request, t);
    } else if e.TurnStep? {
      match s.procs[e.pid]
      case TurnReserving(r) => if r.key in s.files { TurnProcFrame(s, e.pid, t); }
          else { TurnReserveFrame(s, e.pid, r.key, t); }
      case TurnWriting(r) => TurnPutFrame(s, e.pid, TurnReceipt(r, Pending, None), t);
      case TurnDispatched(r, _) => TurnPutFrame(s, e.pid, t.files[r.key].receipt, t);
      case _ => TurnProcFrame(s, e.pid, t);
    } else {
      TurnProcFrame(s, e.pid, t);
    }
  }

  lemma TurnReadOk(starts: Starts, s: Turns, pid: Pid)
    requires TurnEnabled(s, TurnStep(pid)) && TurnProcOk(starts, s, pid, s.procs[pid]) && TurnFilesOk(s)
    requires s.procs[pid].TurnChecking? || s.procs[pid].TurnReading?
    ensures var t := TurnApply(starts, s, TurnStep(pid)); pid in t.procs && TurnProcOk(starts, t, pid, t.procs[pid])
  {
    hide SessionOf;
  }

  lemma TurnWriteOk(starts: Starts, s: Turns, pid: Pid)
    requires TurnEnabled(s, TurnStep(pid)) && TurnProcOk(starts, s, pid, s.procs[pid])
    requires !s.procs[pid].TurnChecking? && !s.procs[pid].TurnReading?
    requires s.procs[pid].TurnReserving? && s.procs[pid].request.key !in s.files
      ==> s.run[s.procs[pid].request.key] == 0
    ensures var t := TurnApply(starts, s, TurnStep(pid)); pid in t.procs && TurnProcOk(starts, t, pid, t.procs[pid])
  {
    hide SessionOf;
  }

  lemma TurnActorOk(starts: Starts, s: Turns, e: TurnEvent)
    requires TurnEnabled(s, e) && (e.TurnSpawn? || TurnProcOk(starts, s, e.pid, s.procs[e.pid]))
    requires TurnFilesOk(s)
    ensures var t := TurnApply(starts, s, e); e.pid in t.procs && TurnProcOk(starts, t, e.pid, t.procs[e.pid])
  {
    if e.TurnStep? {
      hide TurnApply, TurnProcOk;
      if s.procs[e.pid].TurnChecking? || s.procs[e.pid].TurnReading? {
        TurnReadOk(starts, s, e.pid);
      } else {
        TurnWriteOk(starts, s, e.pid);
      }
    } else {
      hide TurnFilesOk, SessionOf;
    }
  }

  lemma TurnHistoryOk(starts: Starts, s: Turns, e: TurnEvent)
    requires TurnEnabled(s, e) && (e.TurnSpawn? || TurnProcOk(starts, s, e.pid, s.procs[e.pid]))
    ensures forall x :: x in TurnApply(starts, s, e).replies ==> x in s.replies || Answered(s, x.request, x.response)
    ensures forall k :: TurnApply(starts, s, e).run[k] > 0 ==> s.run[k] > 0 || Known(starts, k.session)
  {
  }

  lemma TurnOtherOk(starts: Starts, s: Turns, t: Turns, actor: Pid, pid: Pid, p: TurnProc)
    requires s.owner.Keys == s.files.Keys
      && TurnFrame(s, t, actor)
      && pid != actor
      && TurnProcOk(starts, s, pid, p)
    ensures TurnProcOk(starts, t, pid, p)
  {
  }

  lemma TurnKeepsInv(starts: Starts, s: Turns, e: TurnEvent)
    requires TurnInv(starts, s) && TurnEnabled(s, e)
    ensures TurnInv(starts, TurnApply(starts, s, e))
  {
    var t := TurnApply(starts, s, e);
    TurnStepFrame(starts, s, e);
    TurnActorOk(starts, s, e);
    TurnHistoryOk(starts, s, e);
    hide TurnApply, TurnEnabled, TurnFilesOk, Known;
    forall pid | pid in t.procs ensures TurnProcOk(starts, t, pid, t.procs[pid]) {
      if pid != e.pid { TurnOtherOk(starts, s, t, e.pid, pid, s.procs[pid]); }
    }
  }

  /** Nothing the start and close processes do unsettles a turn: recorded sessions stay recorded. */
  lemma TurnProcSurvives(a: Starts, b: Starts, s: Turns, pid: Pid, p: TurnProc)
    requires TurnProcOk(a, s, pid, p) && forall j, x :: SessionOf(a, j, x) ==> SessionOf(b, j, x)
    ensures TurnProcOk(b, s, pid, p)
  {
    hide SessionOf, Answered, OwnsTurn;
  }

  lemma SessionsSurvive(a: Starts, b: Starts, pid: Pid)
    requires StartFrame(a, b, pid)
    ensures forall j, x :: SessionOf(a, j, x) ==> SessionOf(b, j, x)
  {
    forall j, x | SessionOf(a, j, x) ensures SessionOf(b, j, x) {
      assert HasSession(a, j);
      assert KeepsSession(a, b, j);
    }
  }

  lemma TurnInvSurvivesStarts(a: Starts, b: Starts, pid: Pid, s: Turns)
    requires StartFrame(a, b, pid) && TurnInv(a, s)
    ensures TurnInv(b, s)
  {
    SessionsSurvive(a, b, pid);
    forall k | s.run[k] > 0 ensures Known(b, k.session) {
      assert Known(a, k.session);
      var j :| j in a.files && SessionOf(a, j, k.session);
      assert SessionOf(b, j, k.session);
    }
    hide StartFrame, SessionOf, TurnProcOk, TurnFilesOk, Answered, Known;
    forall q | q in s.procs ensures TurnProcOk(b, s, q, s.procs[q]) { TurnProcSurvives(a, b, s, q, s.procs[q]); }
  }

  // ----- whole runs -----

  datatype State = State(starts: Starts, turns: Turns)
  datatype Event = StartSide(start: StartEvent) | TurnSide(turn: TurnEvent)

  predicate Enabled(s: State, e: Event) {
    match e
    case StartSide(x) => StartEnabled(s.starts, x)
    case TurnSide(x) => TurnEnabled(s.turns, x)
  }

  function Apply(s: State, e: Event): State
    requires Enabled(s, e)
  {
    match e
    case StartSide(x) => s.(starts := StartApply(s.starts, x))
    case TurnSide(x) => s.(turns := TurnApply(s.starts, s.turns, x))
  }

  predicate Init(s: State) {
    s == State(Starts(map[], map[], map[], multiset{}, {}), Turns(map[], map[], map[], multiset{}, {}))
  }

  ghost predicate Execution(states: seq<State>, events: seq<Event>) {
    && |states| == |events| + 1 && Init(states[0])
    && forall i :: 0 <= i < |events| ==> Enabled(states[i], events[i]) && states[i + 1] == Apply(states[i], events[i])
  }

  lemma ExecutionStep(states: seq<State>, events: seq<Event>, k: nat)
    requires Execution(states, events) && k + 1 < |states|
    ensures k < |events|
      && Enabled(states[k], events[k])
      && states[k + 1] == Apply(states[k], events[k])
  {
  }

  ghost predicate Inv(s: State) {
    StartInv(s.starts) && TurnInv(s.starts, s.turns)
  }

  lemma {:induction false} ExecutionKeepsInv(states: seq<State>, events: seq<Event>, n: nat)
    requires Execution(states, events) && n < |states|
    ensures Inv(states[n])
  {
    if n > 0 {
      ExecutionKeepsInv(states, events, n - 1);
      var s, e := states[n - 1], events[n - 1];
      assert Enabled(s, e) && states[n] == Apply(s, e);
      hide StartInv, TurnInv, StartEnabled, TurnEnabled, StartApply, TurnApply, StartFrame, Execution;
      match e
      case StartSide(x) =>
        StartKeepsInv(s.starts, x);
        TurnInvSurvivesStarts(s.starts, StartApply(s.starts, x), x.pid, s.turns);
      case TurnSide(x) =>
        TurnKeepsInv(s.starts, s.turns, x);
    }
  }

  /** Over any interleaving and any crashes: one start per job, one resume per session, incident and turn,
    * and a session is resumed only when some job's start receipt names it. */
  lemma EffectsAtMostOnce(states: seq<State>, events: seq<Event>, n: nat, job: string, key: TurnKey)
    requires Execution(states, events) && n < |states|
    ensures states[n].starts.run[job] <= 1 && states[n].turns.run[key] <= 1
    ensures states[n].turns.run[key] == 1 ==> Known(states[n].starts, key.session)
  {
    ExecutionKeepsInv(states, events, n);
  }

  // ----- turns need an active start -----

  /** The job's start receipt is complete, active, and of the turn's session and task. */
  ghost predicate ActiveOwner(files: map<string, File<StartReceipt>>, t: TurnRequest) {
    exists r :: t.job in files && files[t.job] == Receipt(StartReceipt(r, Active, Some(t.key.session)))
      && r.taskDigest == t.taskDigest
  }

  lemma OwnerExactly(starts: Starts, t: TurnRequest)
    ensures BoundToActiveStart(starts, t) <==> ActiveOwner(starts.files, t)
  {
    if t.job in starts.files && starts.files[t.job].Receipt? {
      var r := starts.files[t.job].receipt;
      assert r == StartReceipt(r.request, r.status, r.session);
    }
  }

  /** The check of a turn: it goes on under an active owner, and under any other it ends with nothing reserved
    * or run. */
  lemma TurnCheckedExactly(starts: Starts, s: Turns, pid: Pid)
    requires TurnEnabled(s, TurnStep(pid)) && s.procs[pid].TurnChecking?
    ensures var r := s.procs[pid].request;
      TurnApply(starts, s, TurnStep(pid))
        == s.(procs := s.procs[pid := if ActiveOwner(starts.files, r) then TurnReading(r) else TurnFinished])
  {
    OwnerExactly(starts, s.procs[pid].request);
    hide ActiveOwner;
  }

  /** Some state up to the n-th had an active owner for the turn. */
  ghost predicate WasOwned(states: seq<State>, n: nat, r: TurnRequest) {
    exists m: nat :: m <= n < |states| && ActiveOwner(states[m].starts.files, r)
  }

  predicate PastCheck(p: TurnProc) {
    p.TurnReading? || p.TurnReserving? || p.TurnWriting? || p.TurnReserved?
  }

  ghost predicate RunOwned(states: seq<State>, n: nat, k: TurnKey) {
    exists r: TurnRequest :: r.key == k && WasOwned(states, n, r)
  }

  ghost predicate AllOwned(states: seq<State>, n: nat)
    requires n < |states|
  {
    var s := states[n].turns;
    && (forall pid :: pid in s.procs && PastCheck(s.procs[pid]) ==> WasOwned(states, n, s.procs[pid].request))
    && (forall k :: s.run[k] > 0 ==> RunOwned(states, n, k))
  }

  /** Only the check of a turn with an active owner moves it past the check, and only a turn past it is run. */
  lemma StepPastCheck(starts: Starts, s: Turns, e: TurnEvent)
    requires TurnEnabled(s, e)
    ensures forall pid :: pid in TurnApply(starts, s, e).procs && PastCheck(TurnApply(starts, s, e).procs[pid]) ==>
      var p := TurnApply(starts, s, e).procs[pid];
      && pid in s.procs
      && ((PastCheck(s.procs[pid]) && s.procs[pid].request == p.request) || ActiveOwner(starts.files, p.request))
  {
    if e.TurnStep? && s.procs[e.pid].TurnChecking? { OwnerExactly(starts, s.procs[e.pid].request); }
    hide ActiveOwner, BoundToActiveStart;
  }

  lemma StepRuns(starts: Starts, s: Turns, e: TurnEvent)
    requires TurnEnabled(s, e)
    ensures forall k :: TurnApply(starts, s, e).run[k] > 0 ==>
      s.run[k] > 0 || (e.TurnRun? && PastCheck(s.procs[e.pid]) && s.procs[e.pid].request.key == k)
  {
    hide BoundToActiveStart;
  }

  lemma OwnedLater(states: seq<State>, n: nat, r: TurnRequest)
    requires n + 1 < |states| && WasOwned(states, n, r)
    ensures WasOwned(states, n + 1, r)
  {
  }

  lemma {:induction false} ExecutionOwned(states: seq<State>, events: seq<Event>, n: nat)
    requires Execution(states, events) && n < |states|
    ensures AllOwned(states, n)
  {
    if n > 0 {
      ExecutionOwned(states, events, n - 1);
      ExecutionStep(states, events, n - 1);
      var s, e, t := states[n - 1], events[n - 1], states[n].turns;
      if e.TurnSide? {
        StepPastCheck(s.starts, s.turns, e.turn);
        StepRuns(s.starts, s.turns, e.turn);
      }
      hide Execution, TurnApply, StartApply, TurnEnabled, StartEnabled, ActiveOwner, PastCheck;
      forall r: TurnRequest | WasOwned(states, n - 1, r) || ActiveOwner(s.starts.files, r) ensures WasOwned(states,
        n, r) {
        if ActiveOwner(s.starts.files, r) { assert WasOwned(states, n - 1, r); }
        OwnedLater(states, n - 1, r);
      }
      hide WasOwned;
      forall k | t.run[k] > 0 ensures RunOwned(states, n, k) {
        if s.turns.run[k] > 0 {
          var r: TurnRequest :| r.key == k && WasOwned(states, n - 1, r);
          assert WasOwned(states, n, r);
        } else {
          assert WasOwned(states, n, s.turns.procs[e.turn.pid].request);
        }
      }
    }
  }

  /** Over any interleaving and any crashes, a turn is resumed only if at some moment before its job's start receipt was
    * complete and active, of the same session and task. */
  lemma ResumedUnderActiveStart(states: seq<State>, events: seq<Event>, n: nat, key: TurnKey)
    requires Execution(states, events) && n < |states| && states[n].turns.run[key] > 0
    ensures exists m: nat, r: TurnRequest :: m <= n && r.key == key && ActiveOwner(states[m].starts.files, r)
  {
    ExecutionOwned(states, events, n);
    assert RunOwned(states, n, key);
    var r: TurnRequest :| r.key == key && WasOwned(states, n, r);
    var m: nat :| m <= n < |states| && ActiveOwner(states[m].starts.files, r);
  }

  // ----- replies agree -----

  /** Every successful start of a job answered the same request with the same session. */
  lemma StartRepliesAgree(states: seq<State>, events: seq<Event>, n: nat, a: StartReply, b: StartReply)
    requires Execution(states, events) && n < |states|
    requires a in states[n].starts.replies
      && b in states[n].starts.replies
      && a.request.job == b.request.job
    ensures a == b
  {
    ExecutionKeepsInv(states, events, n);
    assert Recorded(states[n].starts, a.request, a.session) && Recorded(states[n].starts, b.request, b.session);
  }

  /** Every successful reply for a turn answered the same request with the same response. */
  lemma TurnRepliesAgree(states: seq<State>, events: seq<Event>, n: nat, a: TurnReply, b: TurnReply)
    requires Execution(states, events) && n < |states|
    requires a in states[n].turns.replies
      && b in states[n].turns.replies
      && a.request.key == b.request.key
    ensures a == b
  {
    ExecutionKeepsInv(states, events, n);
    assert Answered(states[n].turns, a.request, a.response) && Answered(states[n].turns, b.request, b.response);
  }

  /** The creator of the job's receipt path has finished, whether it completed, failed or crashed. */
  predicate CreatorGone(s: Starts, job: string) {
    job in s.files && job in s.owner && s.owner[job] in s.procs && s.procs[s.owner[job]].Finished?
  }

  lemma CreatorStaysGone(s: Starts, e: StartEvent, job: string)
    requires StartInv(s) && StartEnabled(s, e) && CreatorGone(s, job)
    ensures CreatorGone(StartApply(s, e), job) && StartApply(s, e).run[job] == s.run[job]
    ensures StartApply(s, e).files[job] != s.files[job] ==> HasSession(s, job)
  {
    StartKeepsInv(s, e);
    assert !e.Spawn? ==> StartProcOk(s, e.pid, s.procs[e.pid]);
    hide StartInv;
    if s.owner[job] == e.pid {
      assert e.GiveUp?;
      assert StartApply(s, e).files == s.files;
    } else {
      hide StartApply;
      assert !Owns(s, e.pid, job);
    }
  }

  lemma StateStaysGone(s: State, e: Event, job: string)
    requires Inv(s) && Enabled(s, e) && CreatorGone(s.starts, job)
    ensures CreatorGone(Apply(s, e).starts, job) && Apply(s, e).starts.run[job] == s.starts.run[job]
    ensures Apply(s, e).starts.files[job] != s.starts.files[job] ==> HasSession(s.starts, job)
  {
    hide StartInv, TurnInv, StartEnabled, TurnEnabled, StartApply, TurnApply;
    if e.StartSide? { CreatorStaysGone(s.starts, e.start, job); }
  }

  /** A start whose reserving process is gone is dispatched by no one else, for ever; and if its receipt
    * never got a session, the receipt itself stays as it was left. */
  lemma {:induction false} AbandonedStartStays(states: seq<State>, events: seq<Event>, m: nat, n: nat, job: string)
    requires Execution(states, events) && m <= n < |states| && CreatorGone(states[m].starts, job)
    ensures n < |states| && m < |states|
    ensures CreatorGone(states[n].starts, job) && states[n].starts.run[job] == states[m].starts.run[job]
    ensures states[n].starts.files[job] == states[m].starts.files[job] || HasSession(states[m].starts, job)
    decreases n
  {
    hide Inv, Enabled, Apply, Execution;
    if m < n {
      AbandonedStartStays(states, events, m, n - 1, job);
      ExecutionKeepsInv(states, events, n - 1);
      ExecutionStep(states, events, n - 1);
      StateStaysGone(states[n - 1], events[n - 1], job);
    }
  }

  // ----- calls that nothing interrupts -----

  /** The receipt an uninterrupted dispatch leaves. */
  function DispatchedReceipt(request: StartRequest, outcome: StartOutcome): StartReceipt {
    StartReceipt(request, if outcome.ready && outcome.session.Some? then Active else Unavailable, outcome.session)
  }

  /** What `close` answers: the session is deleted, there is nothing left to do, or an error. */
  datatype CloseOutcome = Deleted | Noop | Refused

  class Wrapper {
    var starts: Starts
    var turns: Turns

    method DoStart(e: StartEvent)
      requires StartEnabled(starts, e)
      modifies this`starts
      ensures starts == StartApply(old(starts), e)
    {
      starts := StartApply(starts, e);
    }

    method DoTurn(e: TurnEvent)
      requires TurnEnabled(turns, e)
      modifies this`turns
      ensures turns == TurnApply(starts, old(turns), e)
    {
      turns := TurnApply(starts, turns, e);
    }

    /** Reserve, run and replace, from a process that found no receipt. */
    method DispatchStart(pid: Pid, outcome: StartOutcome)
      requires pid in starts.procs
        && starts.procs[pid].Reserving?
        && starts.procs[pid].request.job !in starts.files
      modifies this`starts
      ensures var r := old(starts.procs[pid].request);
        starts.run == old(starts.run) + multiset{r.job} && starts.replies == old(starts.replies)
        && starts.files == old(starts.files)[r.job := Receipt(DispatchedReceipt(r, outcome))]
        && pid in starts.procs
        && starts.procs[pid] == if outcome.ready && outcome.session.Some? then Replying(r, outcome.session.value)
             else Finished
    {
      DoStart(Step(pid));
      DoStart(Step(pid));
      DoStart(Run(pid, outcome));
      DoStart(Step(pid));
    }

    /** `start`: a job with any receipt is never dispatched; a fresh one is dispatched exactly once. */
    method Start(pid: Pid, request: StartRequest, outcome: StartOutcome) returns (reply: Option<Session>)
      requires pid !in starts.procs
      modifies this`starts
      ensures request.job in old(starts.files) ==>
        starts.files == old(starts.files) && starts.run == old(starts.run)
        && forall x: Session :: reply == Some(x)
             <==> old(starts.files[request.job]) == Receipt(StartReceipt(request, Active, Some(x)))
      ensures request.job !in old(starts.files) ==>
        starts.files == old(starts.files)[request.job := Receipt(DispatchedReceipt(request, outcome))]
        && starts.run == old(starts.run) + multiset{request.job}
        && reply == (if outcome.ready then outcome.session else None)
      ensures reply.Some? ==> StartReply(request, reply.value) in starts.replies
    {
      DoStart(Spawn(pid, Reading(request)));
      DoStart(Step(pid));
      if starts.procs[pid].Reserving? { DispatchStart(pid, outcome); }
      reply := None;
      if starts.procs[pid].Replying? {
        reply := Some(starts.procs[pid].session);
        DoStart(Step(pid));
      }
    }

    /** `close`: refused for another task or session and for a receipt that names no session; a closed start
      * stays closed; any other is deleted once, and its receipt says whether that worked. */
    method Close(pid: Pid, request: CloseRequest, deleted: bool) returns (outcome: CloseOutcome)
      requires pid !in starts.procs
      modifies this`starts
      ensures starts.run == old(starts.run) && starts.replies == old(starts.replies)
      ensures request.job !in old(starts.files) ==>
        starts.files == old(starts.files) && outcome == if request.session.None? then Noop else Refused
      ensures request.job in old(starts.files) && old(starts.files[request.job]).Incomplete? ==>
        starts.files == old(starts.files) && outcome == Refused
      ensures forall q: StartRequest, status, session ::
        request.job in old(starts.files) && old(starts.files[request.job])
          == Receipt(StartReceipt(q, status, session)) ==>
        var owned := q.job == request.job && q.taskDigest == request.taskDigest
            && (request.session.Some? ==> request.session == session);
        if owned && status != Closed && session.Some? then
          && starts.files == old(starts.files)[request.job :=
               Receipt(StartReceipt(q, if deleted then Closed else CloseFailed, session))]
          && outcome == if deleted then Deleted else Refused
        else
          starts.files == old(starts.files) && outcome == if owned && status == Closed then Noop else Refused
    {
      var found: Option<StartReceipt> := None;
      if request.job in starts.files && starts.files[request.job].Receipt? {
        found := Some(starts.files[request.job].receipt);
      }
      var absent := request.job !in starts.files;
      DoStart(Spawn(pid, CloseReading(request)));
      DoStart(Step(pid));
      if starts.procs[pid].CloseMarking? {
        DoStart(Step(pid));
        DoStart(Delete(pid, deleted));
        DoStart(Step(pid));
        return if deleted then Deleted else Refused;
      }
      if absent { return if request.session.None? then Noop else Refused; }
      if found.None? { return Refused; }
      var r := found.value;
      var owned := r.request.job == request.job && r.request.taskDigest == request.taskDigest
        && (request.session.Some? ==> request.session == r.session);
      return if owned && r.status.Closed? then Noop else Refused;
    }

    /** Reserve, resume and replace, from a process that found no receipt. */
    method DispatchTurn(pid: Pid, answer: Option<Response>)
      requires pid in turns.procs
        && turns.procs[pid].TurnReserving?
        && turns.procs[pid].request.key !in turns.files
      modifies this`turns
      ensures var r := old(turns.procs[pid].request);
        turns.run == old(turns.run) + multiset{r.key} && turns.replies == old(turns.replies)
        && turns.files == old(turns.files)[r.key := Receipt(TurnReceipt(r, if answer.Some? then Completed
             else Failed, answer))]
        && pid in turns.procs
        && turns.procs[pid] == if answer.Some? then TurnReplying(r, answer.value) else TurnFinished
    {
      DoTurn(TurnStep(pid));
      DoTurn(TurnStep(pid));
      DoTurn(TurnRun(pid, answer));
      DoTurn(TurnStep(pid));
    }

    /** `turn`: refused unless the job's start receipt is complete and active, of the same session and task; a turn
      * with any receipt is never resumed again; a fresh one is resumed exactly once. */
    method Turn(pid: Pid, request: TurnRequest, answer: Option<Response>) returns (reply: Option<Response>)
      requires pid !in turns.procs
      modifies this`turns
      ensures var bound := ActiveOwner(starts.files, request);
        && (!bound ==> turns.files == old(turns.files) && turns.run == old(turns.run) && reply == None)
        && (bound && request.key in old(turns.files) ==>
             && turns.files == old(turns.files) && turns.run == old(turns.run)
             && forall x: Response :: reply == Some(x) <==>
                  old(turns.files[request.key]) == Receipt(TurnReceipt(request, Completed, Some(x))))
        && (bound && request.key !in old(turns.files) ==>
             && turns.run == old(turns.run) + multiset{request.key} && reply == answer
             && turns.files == old(turns.files)[request.key :=
                  Receipt(TurnReceipt(request, if answer.Some? then Completed else Failed, answer))])
      ensures reply.Some? ==> TurnReply(request, reply.value) in turns.replies
    {
      OwnerExactly(starts, request);
      hide ActiveOwner;
      DoTurn(TurnSpawn(pid, request));
      DoTurn(TurnStep(pid));
      reply := None;
      if turns.procs[pid].TurnReading? {
        DoTurn(TurnStep(pid));
        if turns.procs[pid].TurnReserving? { DispatchTurn(pid, answer); }
        if turns.procs[pid].TurnReplying? {
          reply := Some(turns.procs[pid].response);
          DoTurn(TurnStep(pid));
        }
      }
    }
  }

  // ----- the receipt path of a turn -----

  /** The text whose digest names the turn's receipt. */
  function TurnPathText(session: string, incident: string, turn: string): string {
    session + "\n" + incident + "\n" + turn
  }

  function Mirror(s: string): (r: string)
    ensures |r| == |s|
  {
    seq(|s|, i requires 0 <= i < |s| => s[|s| - 1 - i])
  }

  lemma LinePrefixShorter(a: string, b: string, x: string, y: string)
    requires '\n' !in b && a + "\n" + x == b + "\n" + y
    ensures |b| <= |a|
  {
    var t := a + "\n" + x;
    assert t[|a|] == '\n';
    assert forall i :: 0 <= i < |b| ==> (b + "\n" + y)[i] == b[i];
  }

  lemma LinePrefixUnique(a: string, b: string, x: string, y: string)
    requires '\n' !in a && '\n' !in b && a + "\n" + x == b + "\n" + y
    ensures a == b && x == y
  {
    LinePrefixShorter(a, b, x, y);
    LinePrefixShorter(b, a, y, x);
    var t := a + "\n" + x;
    assert t[..|a|] == a && t[..|b|] == b && t[|a| + 1..] == x && t[|b| + 1..] == y;
  }

  /** Different turns never share a path: a session id and a turn number hold no line break,
    * whatever the incident id holds. */
  lemma TurnPathInjective(s1: string, i1: string, t1: string, s2: string, i2: string, t2: string)
    requires '\n' !in s1 && '\n' !in s2 && '\n' !in t1 && '\n' !in t2
    requires TurnPathText(s1, i1, t1) == TurnPathText(s2, i2, t2)
    ensures s1 == s2 && i1 == i2 && t1 == t2
  {
    var r1, r2 := i1 + "\n" + t1, i2 + "\n" + t2;
    assert TurnPathText(s1, i1, t1) == s1 + "\n" + r1;
    assert TurnPathText(s2, i2, t2) == s2 + "\n" + r2;
    LinePrefixUnique(s1, s2, r1, r2);
    assert Mirror(r1) == Mirror(t1) + "\n" + Mirror(i1);
    assert Mirror(r2) == Mirror(t2) + "\n" + Mirror(i2);
    LinePrefixUnique(Mirror(t1), Mirror(t2), Mirror(i1), Mirror(i2));
    assert r1[|i1| + 1..] == t1 && r2[|i2| + 1..] == t2 && r1[..|i1|] == i1 && r2[..|i2|] == i2;
  }
}
