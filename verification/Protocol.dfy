/** The monitor, its helper goroutines, the Stop caller and the server as one interleaved
    transition system with a logical clock. Local steps take no time; a goroutine that waits
    in a select lets time pass up to its next timer; IMAP calls may take any time or never end. */
module Protocol {
  import opened Wrappers

  /** operationTimeout, shutdownTimeout, idleTimeout and learnInterval. */
  datatype Config = Config(op: nat, shutdown: nat, idle: nat, learn: nat)

  /** The call sites of runIMAPPhase: runOnce, the periodic pass, and after an event. */
  datatype Site = OnceHam | OnceSpam | OnceScan | PerScan | PerHam | PerSpam | EventScan

  /** The select case that ended a wait for mailbox updates. */
  datatype Reason = CtxDone | ConnDone | IdleExpired | LearnDue | Event(count: nat) | ChannelClosed

  /** Where the goroutine that runs Monitor is. */
  datatype Main =
    | Entry
    | Gate                                                   // holds runMu
    | GatePassed                                             // holds runMu, the context was alive
    | PhaseEnter(site: Site)                                 // runIMAPPhase
    | PhaseWait(site: Site, w: nat, deadline: int)
    | PhasePoll(site: Site, w: nat)
    | PhaseClose(site: Site, w: nat, deadline: int)          // in closeTransport
    | PhaseDrain(site: Site, w: nat, deadline: int)
    | PhaseRet(site: Site, ok: bool)
    | LoopTop
    | MonEnter                                               // startMonitor
    | MonWait(w: nat, deadline: int)
    | MonPoll(w: nat)
    | MonClose(deadline: int)                                // in closeTransport
    | Waiting(ch: nat, idling: bool, learnAt: int, idleAt: int)
    | StopEnter(ch: nat, idling: bool, reason: Reason)       // stopIDLE
    | StopWait(w: nat, reason: Reason, deadline: int)
    | StopClose(w: nat, reason: Reason, deadline: int)       // in closeTransport
    | StopDrain(w: nat, reason: Reason, deadline: int)
    | StopRet(reason: Reason, ok: bool)
    | Post(failed: bool)                                     // behind the select
    | Returned(failed: bool)

  /** The goroutines that run a phase, imapclt.Client.Monitor or a stop function. */
  datatype Worker =
    | Phase(site: Site)
    | MonSelect
    | MonRegister(ch: nat)
    | MonIdle(ch: nat)
    | MonUnregister(ch: nat)
    | MonCloseCh(ch: nat)
    | StopIdle(ch: nat)
    | StopUnregister(ch: nat, ok: bool)
    | StopCloseCh(ch: nat, ok: bool)
    | StopNoop

  /** What a worker leaves in its result channel. */
  datatype WorkerResult = PhaseDone(ok: bool) | MonOk(ch: nat, idling: bool) | MonErr | StopDone(ok: bool)

  /** An event channel with room for one event; closes counts close calls. */
  datatype Chan = Chan(buf: seq<nat>, closes: nat)

  const CHAN_CAPACITY := 1

  datatype Holder = Free | ByMain | ByStop

  /** Where the first caller of Stop is. */
  datatype Stopper =
    | StopNotCalled
    | StopLocked
    | StopUnlocked
    | StopClosing(deadline: int)
    | StopJoining(deadline: int)
    | StopReturned(late: bool)

  datatype Handler = HandlerIdle | HandlerHolds(count: nat)   // holds the channel mutex

  /** The running workers, and the results not yet or already read. */
  datatype Crew = Crew(workers: map<nat, Worker>, results: map<nat, WorkerResult>, nextId: nat)

  /** lateAdd: a run was added to wgRun after Stop had cancelled. */
  datatype Shutdown = Shutdown(cancelled: bool, stopCancelled: bool, runMu: Holder, wgRun: nat, lateAdd: bool,
                               stopper: Stopper)

  /** The goroutines that close the transport, by how far they are, and what they have done:
      calls of the transport's Close, writes of transportCloseErr, closes of transportCloseDone. */
  datatype Closing = Closing(once: bool, spawned: nat, calling: nat, wrote: nat,
                             calls: nat, errWrites: nat, doneCloses: nat)

  /** idle: the outstanding IDLE command; registered: newMessagesCh; panicked: a send on or a
      second close of a closed channel. */
  datatype Session = Session(connClosed: bool, idle: Option<nat>, registered: Option<nat>,
                             chans: map<nat, Chan>, nextCh: nat, handler: Handler, panicked: bool)

  /** count: mails in the scan box; watching: the session has it selected; updates: mailbox
      updates not yet handled; gapArrival: a mail arrived between the last empty SELECT and the
      registration of the channel. */
  datatype Server = Server(count: nat, watching: bool, updates: seq<Option<nat>>, gapArrival: bool)

  /** Times and counters the properties speak about: the call of Monitor, the start of the
      current runIMAPPhase, startMonitor or stopIDLE, the cancellation, the call of Stop and its end, the
      end of Monitor, the last look at the scan box by startMonitor (or the call of Monitor); monitors
      started, stop functions invoked. */
  datatype Audit = Audit(startedAt: int, callAt: int, cancelAt: int, stopAt: int, stopEndAt: int, returnedAt: int,
                         lookAt: int, starts: nat, stops: nat)

  datatype State = State(now: int, main: Main, lastLearnAt: int, crew: Crew, down: Shutdown, closing: Closing,
                         session: Session, server: Server, audit: Audit)

  predicate Init(s: State) {
    && s.main == Entry && s.crew.workers == map[] && s.crew.results == map[]
    && s.down == Shutdown(false, false, Free, 0, false, StopNotCalled)
    && s.closing == Closing(false, 0, 0, 0, 0, 0, 0)
    && s.session == Session(false, None, None, map[], 0, HandlerIdle, false)
    && s.audit.starts == s.audit.stops == 0
  }

  // ---- the main goroutine ---------------------------------------------------------

  /** The ready case a select takes; the other steps of the main goroutine are deterministic. */
  datatype Case =
    | Go | TakeResult | TakeDone | TakeTimer | TakeClosed | TakeCtx | TakeConn | TakeIdle | TakeLearn | TakeEvent

  function Spawn(s: State, k: Worker): State {
    s.(crew := Crew(s.crew.workers[s.crew.nextId := k], s.crew.results, s.crew.nextId + 1))
  }

  /** transportCloseOnce.Do: only the first caller starts the goroutine that calls Close. */
  function StartClose(c: Closing): Closing {
    if c.once then c else c.(once := true, spawned := c.spawned + 1)
  }

  function Called(s: State): Audit {
    s.audit.(callAt := s.now)
  }

  function Return(s: State, failed: bool): State {
    s.(main := Returned(failed), audit := s.audit.(returnedAt := s.now),
       down := s.down.(wgRun := if s.down.wgRun > 0 then s.down.wgRun - 1 else 0))
  }

  /** Returning an error, or nil if the context is cancelled. */
  function ReturnErr(s: State): State {
    Return(s, !s.down.cancelled)
  }

  function HasResult(s: State, w: nat): bool {
    w in s.crew.results
  }

  /** The cases of the selects on opCtx.Done and on transportCloseDone. */
  predicate CtxOver(s: State, deadline: int) {
    s.down.cancelled || s.now >= deadline
  }

  predicate CloseOver(s: State, k: Case, deadline: int) {
    (k == TakeClosed && s.closing.doneCloses > 0) || (k == TakeTimer && s.now >= deadline)
  }

  function AfterPhase(s: State, site: Site): State {
    match site
    case OnceHam => s.(main := PhaseEnter(OnceSpam))
    case OnceSpam => s.(main := PhaseEnter(OnceScan))
    case OnceScan => s.(main := LoopTop, lastLearnAt := s.now)
    case PerScan => s.(main := PhaseEnter(PerHam))
    case PerHam => s.(main := PhaseEnter(PerSpam))
    case PerSpam => s.(main := Post(false), lastLearnAt := s.now)
    case EventScan => s.(main := Post(false))
  }

  function PhaseStep(c: Config, s: State, k: Case): Option<State> {
    match s.main
    case PhaseEnter(site) =>
      if s.down.cancelled then Some(s.(main := PhaseRet(site, false), audit := Called(s)))
      else Some(Spawn(s, Phase(site)).(main := PhaseWait(site, s.crew.nextId, s.now + c.op), audit := Called(s)))
    case PhaseWait(site, w, deadline) =>
      if k == TakeResult && HasResult(s, w) then Some(s.(main := PhaseRet(site, s.crew.results[w] == PhaseDone(true))))
      else if k == TakeDone && CtxOver(s, deadline) then Some(s.(main := PhasePoll(site, w)))
      else None
    case PhasePoll(site, w) =>
      if HasResult(s, w) then Some(s.(main := PhaseRet(site, s.crew.results[w] == PhaseDone(true))))
      else Some(s.(closing := StartClose(s.closing), main := PhaseClose(site, w, s.now + c.shutdown)))
    case PhaseClose(site, w, deadline) =>
      if CloseOver(s, k, deadline) then Some(s.(main := PhaseDrain(site, w, s.now + c.shutdown))) else None
    case PhaseDrain(site, w, deadline) =>
      if (k == TakeResult && HasResult(s, w)) || (k == TakeTimer && s.now >= deadline)
      then Some(s.(main := PhaseRet(site, false)))
      else None
    case PhaseRet(site, ok) =>
      if ok then Some(AfterPhase(s, site))
      else if site == EventScan then Some(s.(main := Post(true)))
      else Some(ReturnErr(s))
    case _ => None
  }

  /** startMonitor returned the result r. */
  function MonitorStarted(c: Config, s: State, r: WorkerResult): State {
    match r
    case MonOk(ch, idling) =>
      var left := s.lastLearnAt + c.learn;
      s.(main := Waiting(ch, idling, if left > s.now then left else s.now, s.now + c.idle),
         audit := s.audit.(starts := s.audit.starts + 1))
    case _ => ReturnErr(s)
  }

  function MonStep(c: Config, s: State, k: Case): Option<State> {
    match s.main
    case LoopTop => if s.down.cancelled then Some(Return(s, false)) else Some(s.(main := MonEnter))
    case MonEnter =>
      if s.down.cancelled then Some(ReturnErr(s))
      else Some(Spawn(s, MonSelect).(main := MonWait(s.crew.nextId, s.now + c.op),
                                     audit := Called(s).(lookAt := s.now)))
    case MonWait(w, deadline) =>
      if k == TakeResult && HasResult(s, w) then Some(MonitorStarted(c, s, s.crew.results[w]))
      else if k == TakeDone && CtxOver(s, deadline) then Some(s.(main := MonPoll(w)))
      else None
    case MonPoll(w) =>
      if HasResult(s, w) then Some(MonitorStarted(c, s, s.crew.results[w]))
      else Some(s.(closing := StartClose(s.closing), main := MonClose(s.now + c.shutdown)))
    case MonClose(deadline) =>
      if CloseOver(s, k, deadline) then Some(ReturnErr(s)) else None
    case _ => None
  }

  function WaitStep(s: State, k: Case): Option<State> {
    match s.main
    case Waiting(ch, idling, learnAt, idleAt) =>
      if k == TakeCtx && s.down.cancelled then Some(s.(main := StopEnter(ch, idling, CtxDone)))
      else if k == TakeConn && s.session.connClosed then Some(s.(main := StopEnter(ch, idling, ConnDone)))
      else if k == TakeIdle && s.now >= idleAt then Some(s.(main := StopEnter(ch, idling, IdleExpired)))
      else if k == TakeLearn && s.now >= learnAt then Some(s.(main := StopEnter(ch, idling, LearnDue)))
      else if k == TakeEvent && ch in s.session.chans then
        var chan := s.session.chans[ch];
        if chan.buf != [] then
          Some(s.(main := StopEnter(ch, idling, Event(chan.buf[0])),
                  session := s.session.(chans := s.session.chans[ch := Chan(chan.buf[1..], chan.closes)])))
        else if chan.closes > 0 then Some(s.(main := StopEnter(ch, idling, ChannelClosed)))
        else None
      else None
    case _ => None
  }

  /** What the loop does after stopMonitor returned for the given reason. */
  function AfterStop(s: State, reason: Reason, ok: bool): State {
    match reason
    case CtxDone => Return(s, false)
    case ConnDone => ReturnErr(s)
    case ChannelClosed => ReturnErr(s)
    case IdleExpired => if ok then s.(main := Post(false)) else ReturnErr(s)
    case LearnDue => if ok then s.(main := PhaseEnter(PerScan)) else ReturnErr(s)
    case Event(n) =>
      if !ok then ReturnErr(s) else if n == 0 then s.(main := Post(false)) else s.(main := PhaseEnter(EventScan))
  }

  function StopStep(c: Config, s: State, k: Case): Option<State> {
    match s.main
    case StopEnter(ch, idling, reason) =>
      Some(Spawn(s, if idling then StopIdle(ch) else StopNoop)
           .(main := StopWait(s.crew.nextId, reason, s.now + c.shutdown),
             audit := Called(s).(stops := s.audit.stops + 1)))
    case StopWait(w, reason, deadline) =>
      if k == TakeResult && HasResult(s, w) then Some(s.(main := StopRet(reason, s.crew.results[w] == StopDone(true))))
      else if k == TakeTimer && s.now >= deadline then
        Some(s.(closing := StartClose(s.closing), main := StopClose(w, reason, s.now + c.shutdown)))
      else None
    case StopClose(w, reason, deadline) =>
      if CloseOver(s, k, deadline) then Some(s.(main := StopDrain(w, reason, s.now + c.shutdown))) else None
    case StopDrain(w, reason, deadline) =>
      if k == TakeResult && HasResult(s, w) then Some(s.(main := StopRet(reason, s.crew.results[w] == StopDone(true))))
      else if k == TakeTimer && s.now >= deadline then Some(s.(main := StopRet(reason, false)))
      else None
    case StopRet(reason, ok) => Some(AfterStop(s, reason, ok))
    case Post(failed) =>
      if s.down.cancelled then Some(Return(s, false))
      else if failed then Some(Return(s, true))
      else Some(s.(main := LoopTop))
    case _ => None
  }

  function GateStep(s: State): Option<State> {
    match s.main
    case Entry =>
      if s.down.runMu == Free then
        Some(s.(main := Gate, down := s.down.(runMu := ByMain), audit := s.audit.(startedAt := s.now)))
      else None
    case Gate =>
      if s.down.cancelled then
        Some(s.(main := Returned(false), down := s.down.(runMu := Free), audit := s.audit.(returnedAt := s.now)))
      else Some(s.(main := GatePassed))
    case GatePassed =>
      Some(s.(main := PhaseEnter(OnceHam), audit := s.audit.(lookAt := s.now),
              down := s.down.(runMu := Free, wgRun := s.down.wgRun + 1,
                              lateAdd := s.down.lateAdd || s.down.stopCancelled)))
    case _ => None
  }

  function MainStep(c: Config, s: State, k: Case): Option<State> {
    var m := s.main;
    if m.Entry? || m.Gate? || m.GatePassed? then GateStep(s)
    else if m.PhaseEnter? || m.PhaseWait? || m.PhasePoll? || m.PhaseClose? || m.PhaseDrain? || m.PhaseRet?
    then PhaseStep(c, s, k)
    else if m.LoopTop? || m.MonEnter? || m.MonWait? || m.MonPoll? || m.MonClose? then MonStep(c, s, k)
    else if m.Waiting? then WaitStep(s, k)
    else StopStep(c, s, k)
  }

  // ---- workers ----------------------------------------------------------------------

  function Become(crew: Crew, w: nat, k: Worker): Crew {
    crew.(workers := crew.workers[w := k])
  }

  function Finish(crew: Crew, w: nat, r: WorkerResult): Crew {
    crew.(workers := crew.workers - {w}, results := crew.results[w := r])
  }

  /** close(ch): a second close panics. */
  function CloseCh(n: Session, ch: nat): Session {
    if ch !in n.chans || n.chans[ch].closes > 0 then n.(panicked := true)
    else n.(chans := n.chans[ch := Chan(n.chans[ch].buf, 1)])
  }

  /** The handler holds the mutex that guards newMessagesCh. */
  predicate MutexTaken(s: State) {
    s.session.handler.HandlerHolds?
  }

  /** One step of imapclt.Client.Monitor; ok is the answer of the IMAP call it waits for. */
  function MonWorkerStep(s: State, w: nat, k: Worker, ok: bool): Option<State> {
    match k
    case MonSelect =>
      var n, ch := s.session, s.session.nextCh;
      var seen := s.server.(watching := true, gapArrival := false);
      if !ok then Some(s.(crew := Finish(s.crew, w, MonErr)))
      else if s.server.count != 0 then
        Some(s.(server := seen, session := n.(nextCh := ch + 1, chans := n.chans[ch := Chan([s.server.count], 1)]),
                crew := Finish(s.crew, w, MonOk(ch, false))))
      else
        Some(s.(server := seen, session := n.(nextCh := ch + 1, chans := n.chans[ch := Chan([], 0)]),
                crew := Become(s.crew, w, MonRegister(ch))))
    case MonRegister(ch) =>
      if MutexTaken(s) then None
      else Some(s.(session := s.session.(registered := Some(ch)), crew := Become(s.crew, w, MonIdle(ch))))
    case MonIdle(ch) =>
      if ok then Some(s.(session := s.session.(idle := Some(ch)), crew := Finish(s.crew, w, MonOk(ch, true))))
      else Some(s.(crew := Become(s.crew, w, MonUnregister(ch))))
    case MonUnregister(ch) =>
      if MutexTaken(s) then None
      else Some(s.(session := s.session.(registered := None), crew := Become(s.crew, w, MonCloseCh(ch))))
    case MonCloseCh(ch) => Some(s.(session := CloseCh(s.session, ch), crew := Finish(s.crew, w, MonErr)))
    case _ => None
  }

  /** One step of the stop function; ok: the IDLE command was ended without an error. */
  function StopWorkerStep(s: State, w: nat, k: Worker, ok: bool): Option<State> {
    match k
    case StopIdle(ch) =>
      Some(s.(session := if ok then s.session.(idle := None) else s.session,
              crew := Become(s.crew, w, StopUnregister(ch, ok))))
    case StopUnregister(ch, r) =>
      if MutexTaken(s) then None
      else Some(s.(session := s.session.(registered := None), crew := Become(s.crew, w, StopCloseCh(ch, r))))
    case StopCloseCh(ch, r) => Some(s.(session := CloseCh(s.session, ch), crew := Finish(s.crew, w, StopDone(r))))
    case StopNoop => Some(s.(crew := Finish(s.crew, w, StopDone(true))))
    case _ => None
  }

  function WorkerStep(s: State, w: nat, ok: bool): Option<State> {
    if w !in s.crew.workers then None
    else
      var k := s.crew.workers[w];
      if k.Phase? then Some(s.(crew := Finish(s.crew, w, PhaseDone(ok))))
      else if k.StopIdle? || k.StopUnregister? || k.StopCloseCh? || k.StopNoop? then StopWorkerStep(s, w, k, ok)
      else MonWorkerStep(s, w, k, ok)
  }

  /** A command of a running phase: it may select another mailbox and move mails away. */
  function PhaseCommand(s: State, w: nat, watching: bool, count: nat): Option<State> {
    if w in s.crew.workers && s.crew.workers[w].Phase? && count <= s.server.count
    then Some(s.(server := s.server.(watching := watching, count := count)))
    else None
  }

  // ---- closing the transport, and Stop -------------------------------------------------

  datatype CloserMove = CallClose | CloseReturns | CloseDone

  function CloserStep(s: State, m: CloserMove): Option<State> {
    var c := s.closing;
    match m
    case CallClose =>
      if c.spawned == 0 then None
      else Some(s.(closing := c.(spawned := c.spawned - 1, calling := c.calling + 1, calls := c.calls + 1)))
    case CloseReturns =>
      if c.calling == 0 then None
      else Some(s.(closing := c.(calling := c.calling - 1, wrote := c.wrote + 1, errWrites := c.errWrites + 1),
                   session := s.session.(connClosed := true)))
    case CloseDone =>
      if c.wrote == 0 then None
      else Some(s.(closing := c.(wrote := c.wrote - 1, doneCloses := c.doneCloses + 1)))
  }

  function Cancel(s: State): Audit {
    if s.down.cancelled then s.audit else s.audit.(cancelAt := s.now)
  }

  function StopperStep(c: Config, s: State, k: Case): Option<State> {
    match s.down.stopper
    case StopNotCalled =>
      if s.down.runMu == Free
      then Some(s.(down := s.down.(runMu := ByStop, stopper := StopLocked), audit := s.audit.(stopAt := s.now)))
      else None
    case StopLocked =>
      Some(s.(down := s.down.(cancelled := true, stopCancelled := true, runMu := Free, stopper := StopUnlocked),
              audit := Cancel(s)))
    case StopUnlocked =>
      Some(s.(closing := StartClose(s.closing), down := s.down.(stopper := StopClosing(s.now + c.shutdown))))
    case StopClosing(deadline) =>
      if CloseOver(s, k, deadline) then Some(s.(down := s.down.(stopper := StopJoining(s.now + c.shutdown)))) else None
    case StopJoining(deadline) =>
      if (k == TakeResult && s.down.wgRun == 0) || (k == TakeTimer && s.now >= deadline)
      then Some(s.(down := s.down.(stopper := StopReturned(k == TakeTimer)), audit := s.audit.(stopEndAt := s.now)))
      else None
    case StopReturned(_) => None
  }

  // ---- server, update handler, clock ------------------------------------------------------

  /** The client knows that the scan box was empty but has not registered its channel yet. */
  ghost predicate InGap(s: State) {
    exists w :: w in s.crew.workers && s.crew.workers[w].MonRegister?
  }

  /** sendEventNewMessages: dropped if the buffer is full; a send on a closed channel panics. */
  function Send(n: Session, ch: nat, count: nat): Session {
    if ch !in n.chans || n.chans[ch].closes > 0 then n.(panicked := true)
    else if |n.chans[ch].buf| < CHAN_CAPACITY then n.(chans := n.chans[ch := Chan(n.chans[ch].buf + [count], 0)])
    else n
  }

  function HandlerStep(s: State): Option<State> {
    var n, u := s.session, s.server.updates;
    match n.handler
    case HandlerIdle =>
      if u == [] then None
      else
        var server := s.server.(updates := u[1..]);
        if u[0].None? then Some(s.(server := server))
        else Some(s.(server := server, session := n.(handler := HandlerHolds(u[0].value))))
    case HandlerHolds(count) =>
      var sent := if n.registered.Some? then Send(n, n.registered.value, count) else n;
      Some(s.(session := sent.(handler := HandlerIdle)))
  }

  /** A new mail: the server announces it to a session that has the scan box selected. */
  ghost function Arrive(s: State): Server {
    var v := s.server;
    Server(v.count + 1, v.watching, if v.watching then v.updates + [Some(v.count + 1)] else v.updates,
           v.gapArrival || InGap(s))
  }

  /** The main goroutine has something to do right now. */
  predicate MainReady(s: State) {
    match s.main
    case Entry => false
    case Returned(_) => false
    case PhaseWait(_, w, deadline) => HasResult(s, w) || CtxOver(s, deadline)
    case PhaseClose(_, _, deadline) => s.closing.doneCloses > 0 || s.now >= deadline
    case PhaseDrain(_, w, deadline) => HasResult(s, w) || s.now >= deadline
    case MonWait(w, deadline) => HasResult(s, w) || CtxOver(s, deadline)
    case MonClose(deadline) => s.closing.doneCloses > 0 || s.now >= deadline
    case Waiting(ch, _, learnAt, idleAt) =>
      s.down.cancelled || s.session.connClosed || s.now >= learnAt || s.now >= idleAt ||
      (ch in s.session.chans && (s.session.chans[ch].buf != [] || s.session.chans[ch].closes > 0))
    case StopWait(w, _, deadline) => HasResult(s, w) || s.now >= deadline
    case StopClose(_, _, deadline) => s.closing.doneCloses > 0 || s.now >= deadline
    case StopDrain(w, _, deadline) => HasResult(s, w) || s.now >= deadline
    case _ => true
  }

  predicate StopperReady(s: State) {
    match s.down.stopper
    case StopNotCalled => false
    case StopReturned(_) => false
    case StopClosing(deadline) => s.closing.doneCloses > 0 || s.now >= deadline
    case StopJoining(deadline) => s.down.wgRun == 0 || s.now >= deadline
    case _ => true
  }

  /** No timer the main goroutine waits for is set for a time before t. */
  predicate MainTimersAllow(m: Main, t: int) {
    match m
    case PhaseWait(_, _, deadline) => t <= deadline
    case PhaseClose(_, _, deadline) => t <= deadline
    case PhaseDrain(_, _, deadline) => t <= deadline
    case MonWait(_, deadline) => t <= deadline
    case MonClose(deadline) => t <= deadline
    case Waiting(_, _, learnAt, idleAt) => t <= learnAt && t <= idleAt
    case StopWait(_, _, deadline) => t <= deadline
    case StopClose(_, _, deadline) => t <= deadline
    case StopDrain(_, _, deadline) => t <= deadline
    case _ => true
  }

  predicate StopperTimersAllow(m: Stopper, t: int) {
    match m
    case StopClosing(deadline) => t <= deadline
    case StopJoining(deadline) => t <= deadline
    case _ => true
  }

  predicate MayTick(s: State, t: int) {
    && s.now < t && !MainReady(s) && !StopperReady(s)
    && MainTimersAllow(s.main, t) && StopperTimersAllow(s.down.stopper, t)
  }

  // ---- all steps ------------------------------------------------------------------------------

  datatype Action =
    | MainMoves(k: Case)
    | WorkerMoves(w: nat, ok: bool)
    | PhaseCommands(w: nat, watching: bool, count: nat)
    | CloserMoves(m: CloserMove)
    | StopperMoves(k: Case)
    | HandlerMoves
    | MailArrives
    | ServerUpdates(u: Option<nat>)   // any other update, also without or with a zero count
    | ParentCancels                   // the context passed in is cancelled
    | ConnectionLost
    | Tick(t: int)

  /** The state after action a, if a is possible in s. */
  ghost function Next(c: Config, s: State, a: Action): Option<State> {
    match a
    case MainMoves(k) => MainStep(c, s, k)
    case WorkerMoves(w, ok) => WorkerStep(s, w, ok)
    case PhaseCommands(w, watching, count) => PhaseCommand(s, w, watching, count)
    case CloserMoves(m) => CloserStep(s, m)
    case StopperMoves(k) => StopperStep(c, s, k)
    case HandlerMoves => HandlerStep(s)
    case MailArrives => Some(s.(server := Arrive(s)))
    case ServerUpdates(u) => Some(s.(server := s.server.(updates := s.server.updates + [u])))
    case ParentCancels => Some(s.(down := s.down.(cancelled := true), audit := Cancel(s)))
    case ConnectionLost => Some(s.(session := s.session.(connClosed := true)))
    case Tick(t) => if MayTick(s, t) then Some(s.(now := t)) else None
  }

  /** The state after all the actions, if each of them is possible when its turn comes. */
  ghost function Exec(c: Config, s0: State, actions: seq<Action>): Option<State> {
    if actions == [] then Some(s0)
    else match Exec(c, s0, actions[..|actions| - 1])
      case None => None
      case Some(m) => Next(c, m, actions[|actions| - 1])
  }

  /** s occurs in some execution. */
  ghost predicate Reached(c: Config, s: State) {
    exists s0, actions :: Init(s0) && Exec(c, s0, actions) == Some(s)
  }
}
