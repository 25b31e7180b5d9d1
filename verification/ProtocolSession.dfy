/** One session, one user: which goroutine may talk to the server, and the life of the event
    channels. */
module ProtocolSession {
  import opened Wrappers
  import opened Protocol

  // ---- the invariant ---------------------------------------------------------------

  predicate OpenCh(n: Session, ch: nat) {
    ch in n.chans && n.chans[ch].closes == 0
  }

  /** No IDLE is outstanding and no channel is registered. */
  predicate Quiet(n: Session) {
    n.registered == None && n.idle == None
  }

  /** What the session looks like while worker k runs. */
  predicate WorkerInv(n: Session, k: Worker) {
    match k
    case Phase(_) => Quiet(n)
    case MonSelect => Quiet(n)
    case MonRegister(ch) => OpenCh(n, ch) && Quiet(n)
    case MonIdle(ch) => OpenCh(n, ch) && n.registered == Some(ch) && n.idle == None
    case MonUnregister(ch) => OpenCh(n, ch) && n.registered == Some(ch) && n.idle == None
    case MonCloseCh(ch) => OpenCh(n, ch) && Quiet(n)
    case StopIdle(ch) => OpenCh(n, ch) && n.registered == Some(ch) && n.idle == Some(ch)
    case StopUnregister(ch, ok) => OpenCh(n, ch) && n.registered == Some(ch) && (ok ==> n.idle == None)
    case StopCloseCh(ch, ok) => OpenCh(n, ch) && n.registered == None && (ok ==> n.idle == None)
    case StopNoop => Quiet(n)
  }

  /** What the session looks like between a successful startMonitor and its stop function. */
  predicate Monitoring(n: Session, ch: nat, idling: bool) {
    if idling then OpenCh(n, ch) && n.registered == Some(ch) && n.idle == Some(ch)
    else ch in n.chans && n.chans[ch].closes == 1 && Quiet(n)
  }

  predicate ResultInv(n: Session, r: WorkerResult) {
    match r
    case PhaseDone(_) => Quiet(n)
    case MonOk(ch, idling) => Monitoring(n, ch, idling)
    case MonErr => Quiet(n)
    case StopDone(ok) => n.registered == None && (ok ==> n.idle == None)
  }

  datatype Kind = PhaseKind | MonKind | StopKind

  function KindOf(k: Worker): Kind {
    match k
    case Phase(_) => PhaseKind
    case StopIdle(_) => StopKind
    case StopUnregister(_, _) => StopKind
    case StopCloseCh(_, _) => StopKind
    case StopNoop => StopKind
    case _ => MonKind
  }

  function ResultKind(r: WorkerResult): Kind {
    match r
    case PhaseDone(_) => PhaseKind
    case StopDone(_) => StopKind
    case _ => MonKind
  }

  /** Worker w of the given kind runs, or it has left its result and nobody runs. */
  predicate Awaits(crew: Crew, n: Session, w: nat, kind: Kind) {
    if w in crew.workers then KindOf(crew.workers[w]) == kind
    else
      && crew.workers == map[] && w in crew.results
      && ResultKind(crew.results[w]) == kind && ResultInv(n, crew.results[w])
  }

  predicate AtRest(crew: Crew, n: Session) {
    crew.workers == map[] && Quiet(n)
  }

  /** A goroutine is left behind only after the transport close was started. */
  predicate Leftover(crew: Crew, once: bool) {
    crew.workers != map[] ==> once
  }

  /** Where the main goroutine is determines who runs and what the session looks like. */
  predicate Flow(m: Main, crew: Crew, n: Session, once: bool) {
    match m
    case PhaseWait(_, w, _) => Awaits(crew, n, w, PhaseKind)
    case PhasePoll(_, w) => Awaits(crew, n, w, PhaseKind)
    case PhaseClose(_, w, _) => Awaits(crew, n, w, PhaseKind) && once
    case PhaseDrain(_, w, _) => Awaits(crew, n, w, PhaseKind) && once
    case PhaseRet(_, ok) => if ok then AtRest(crew, n) else Leftover(crew, once)
    case MonWait(w, _) => Awaits(crew, n, w, MonKind)
    case MonPoll(w) => Awaits(crew, n, w, MonKind)
    case MonClose(_) => once
    case Waiting(ch, idling, _, _) => crew.workers == map[] && Monitoring(n, ch, idling)
    case StopEnter(ch, idling, _) => crew.workers == map[] && Monitoring(n, ch, idling)
    case StopWait(w, _, _) => Awaits(crew, n, w, StopKind)
    case StopClose(w, _, _) => Awaits(crew, n, w, StopKind) && once
    case StopDrain(w, _, _) => Awaits(crew, n, w, StopKind) && once
    case StopRet(_, ok) => if ok then AtRest(crew, n) else Leftover(crew, once)
    case Post(failed) => if failed then Leftover(crew, once) else AtRest(crew, n)
    case Returned(_) => Leftover(crew, once)
    case _ => AtRest(crew, n)
  }

  /** Ids are fresh, a worker has left no result yet, and no two workers run. */
  ghost predicate CrewInv(crew: Crew) {
    && (forall w :: w in crew.workers ==> w < crew.nextId && w !in crew.results)
    && (forall w :: w in crew.results ==> w < crew.nextId)
    && (forall w, w' :: w in crew.workers && w' in crew.workers ==> w == w')
  }

  /** Channels have one slot and are closed at most once; a registered one is open. */
  ghost predicate ChannelInv(n: Session) {
    && (forall ch :: ch in n.chans ==> ch < n.nextCh && n.chans[ch].closes <= 1 && |n.chans[ch].buf| <= CHAN_CAPACITY)
    && (n.registered.Some? ==> OpenCh(n, n.registered.value))
    && !n.panicked
  }

  ghost predicate WorkersInv(crew: Crew, n: Session) {
    forall w :: w in crew.workers ==> WorkerInv(n, crew.workers[w])
  }

  ghost predicate SessionInv(s: State) {
    && CrewInv(s.crew) && ChannelInv(s.session) && WorkersInv(s.crew, s.session)
    && Flow(s.main, s.crew, s.session, s.closing.once)
  }

  // ---- it holds in every reachable state -----------------------------------------------

  lemma SpawnKeepsCrew(s: State, k: Worker)
    requires CrewInv(s.crew) && s.crew.workers == map[] && WorkerInv(s.session, k)
    ensures CrewInv(Spawn(s, k).crew) && WorkersInv(Spawn(s, k).crew, s.session)
    ensures s.crew.nextId in Spawn(s, k).crew.workers && Spawn(s, k).crew.workers[s.crew.nextId] == k
  {
  }

  lemma PhaseKeepsSession(c: Config, s: State, k: Case)
    requires SessionInv(s) && PhaseStep(c, s, k).Some?
    ensures SessionInv(PhaseStep(c, s, k).value)
  {
    if s.main.PhaseEnter? {
      SpawnKeepsCrew(s, Phase(s.main.site));
    }
  }

  lemma MonEnterKeepsSession(c: Config, s: State)
    requires SessionInv(s) && s.main.MonEnter?
    ensures SessionInv(MonStep(c, s, Go).value)
  {
    SpawnKeepsCrew(s, MonSelect);
  }

  lemma MonitorStartedKeepsSession(c: Config, s: State, w: nat)
    requires SessionInv(s) && w in s.crew.results
    requires s.crew.workers == map[]
    requires ResultKind(s.crew.results[w]) == MonKind && ResultInv(s.session, s.crew.results[w])
    ensures SessionInv(MonitorStarted(c, s, s.crew.results[w]))
  {
  }

  lemma MonKeepsSession(c: Config, s: State, k: Case)
    requires SessionInv(s) && MonStep(c, s, k).Some?
    ensures SessionInv(MonStep(c, s, k).value)
  {
    match s.main
    case MonEnter => MonEnterKeepsSession(c, s);
    case MonWait(w, _) => if HasResult(s, w) { MonitorStartedKeepsSession(c, s, w); }
    case MonPoll(w) => if HasResult(s, w) { MonitorStartedKeepsSession(c, s, w); }
    case _ =>
  }

  lemma StopEnterKeepsSession(c: Config, s: State)
    requires SessionInv(s) && s.main.StopEnter?
    ensures SessionInv(StopStep(c, s, Go).value)
  {
    SpawnKeepsCrew(s, if s.main.idling then StopIdle(s.main.ch) else StopNoop);
  }

  lemma AfterStopKeepsSession(s: State, reason: Reason, ok: bool)
    requires SessionInv(s) && s.main == StopRet(reason, ok)
    ensures SessionInv(AfterStop(s, reason, ok))
  {
  }

  lemma StopKeepsSession(c: Config, s: State, k: Case)
    requires SessionInv(s) && StopStep(c, s, k).Some?
    ensures SessionInv(StopStep(c, s, k).value)
  {
    match s.main
    case StopEnter(_, _, _) => StopEnterKeepsSession(c, s);
    case StopRet(reason, ok) => AfterStopKeepsSession(s, reason, ok);
    case _ =>
  }

  /** The only worker finishes. */
  lemma FinishKeepsCrew(crew: Crew, w: nat, r: WorkerResult)
    requires CrewInv(crew) && w in crew.workers
    ensures CrewInv(Finish(crew, w, r)) && Finish(crew, w, r).workers == map[]
    ensures w in Finish(crew, w, r).results && Finish(crew, w, r).results[w] == r
  {
  }

  lemma BecomeKeepsCrew(crew: Crew, w: nat, k: Worker)
    requires CrewInv(crew) && w in crew.workers
    ensures CrewInv(Become(crew, w, k)) && forall v :: v in Become(crew, w, k).workers ==> v == w
    ensures w in Become(crew, w, k).workers && Become(crew, w, k).workers[w] == k
  {
  }

  /** What a worker's step does to the session is enough for the flow of the main goroutine. */
  lemma FlowAfterFinish(m: Main, crew: Crew, n: Session, n': Session, once: bool, w: nat, r: WorkerResult)
    requires CrewInv(crew) && Flow(m, crew, n, once) && w in crew.workers
    requires ResultKind(r) == KindOf(crew.workers[w]) && ResultInv(n', r)
    ensures Flow(m, Finish(crew, w, r), n', once)
  {
    FinishKeepsCrew(crew, w, r);
  }

  lemma FlowAfterBecome(m: Main, crew: Crew, n: Session, n': Session, once: bool, w: nat, k: Worker)
    requires CrewInv(crew) && Flow(m, crew, n, once) && w in crew.workers
    requires KindOf(k) == KindOf(crew.workers[w])
    ensures Flow(m, Become(crew, w, k), n', once)
  {
    BecomeKeepsCrew(crew, w, k);
  }

  /** Worker w became k, or finished with r, and the session fits that. */
  predicate Became(s: State, w: nat, s': State, k: Worker)
    requires w in s.crew.workers
  {
    s'.crew == Become(s.crew, w, k) && KindOf(k) == KindOf(s.crew.workers[w]) && WorkerInv(s'.session, k)
  }

  predicate Finished(s: State, w: nat, s': State, r: WorkerResult)
    requires w in s.crew.workers
  {
    s'.crew == Finish(s.crew, w, r) && ResultKind(r) == KindOf(s.crew.workers[w]) && ResultInv(s'.session, r)
  }

  /** After worker w's step the crew is in order if the session fits what became of it. */
  ghost predicate Settled(s: State, w: nat, s': State) {
    && ChannelInv(s'.session) && s'.main == s.main && s'.closing == s.closing
    && w in s.crew.workers
    && ((exists k :: Became(s, w, s', k)) || (exists r :: Finished(s, w, s', r)))
  }

  lemma SettledKeepsSession(s: State, w: nat, s': State)
    requires SessionInv(s) && Settled(s, w, s')
    ensures SessionInv(s')
  {
    if k :| Became(s, w, s', k) {
      BecomeKeepsCrew(s.crew, w, k);
      FlowAfterBecome(s.main, s.crew, s.session, s'.session, s.closing.once, w, k);
    } else {
      var r :| Finished(s, w, s', r);
      FinishKeepsCrew(s.crew, w, r);
      FlowAfterFinish(s.main, s.crew, s.session, s'.session, s.closing.once, w, r);
    }
  }

  /** SELECT was answered; a channel was made for this monitor. */
  lemma MonSelectSettles(s: State, w: nat, ok: bool)
    requires SessionInv(s) && w in s.crew.workers && s.crew.workers[w] == MonSelect
    ensures Settled(s, w, MonWorkerStep(s, w, MonSelect, ok).value)
  {
    var s', ch := MonWorkerStep(s, w, MonSelect, ok).value, s.session.nextCh;
    assert WorkerInv(s.session, MonSelect);
    if !ok {
      assert Finished(s, w, s', MonErr);
    } else if s.server.count != 0 {
      assert Finished(s, w, s', MonOk(ch, false));
    } else {
      assert Became(s, w, s', MonRegister(ch));
    }
  }

  lemma MonWorkerSettles(s: State, w: nat, k: Worker, ok: bool)
    requires SessionInv(s) && w in s.crew.workers && s.crew.workers[w] == k && MonWorkerStep(s, w, k, ok).Some?
    ensures Settled(s, w, MonWorkerStep(s, w, k, ok).value)
  {
    assert WorkerInv(s.session, k);
    var s' := MonWorkerStep(s, w, k, ok).value;
    match k
    case MonSelect => MonSelectSettles(s, w, ok);
    case MonRegister(ch) => assert Became(s, w, s', MonIdle(ch));
    case MonIdle(ch) =>
      if ok {
        assert Finished(s, w, s', MonOk(ch, true));
      } else {
        assert Became(s, w, s', MonUnregister(ch));
      }
    case MonUnregister(ch) =>
      assert Became(s, w, s', MonCloseCh(ch));
    case MonCloseCh(ch) => assert Finished(s, w, s', MonErr);
    case _ =>
  }

  lemma StopWorkerSettles(s: State, w: nat, k: Worker, ok: bool)
    requires SessionInv(s) && w in s.crew.workers && s.crew.workers[w] == k && StopWorkerStep(s, w, k, ok).Some?
    ensures Settled(s, w, StopWorkerStep(s, w, k, ok).value)
  {
    assert WorkerInv(s.session, k);
    var s' := StopWorkerStep(s, w, k, ok).value;
    match k
    case StopIdle(ch) => assert Became(s, w, s', StopUnregister(ch, ok));
    case StopUnregister(ch, r) => assert Became(s, w, s', StopCloseCh(ch, r));
    case StopCloseCh(_, r) => assert Finished(s, w, s', StopDone(r));
    case StopNoop => assert Finished(s, w, s', StopDone(true));
    case _ =>
  }

  lemma WorkerKeepsSession(s: State, w: nat, ok: bool)
    requires SessionInv(s) && WorkerStep(s, w, ok).Some?
    ensures SessionInv(WorkerStep(s, w, ok).value)
  {
    var k := s.crew.workers[w];
    match KindOf(k) {
      case PhaseKind =>
        assert WorkerInv(s.session, k);
        assert Finished(s, w, WorkerStep(s, w, ok).value, PhaseDone(ok));
      case MonKind => MonWorkerSettles(s, w, k, ok);
      case StopKind => StopWorkerSettles(s, w, k, ok);
    }
    SettledKeepsSession(s, w, WorkerStep(s, w, ok).value);
  }

  /** The flow looks at registration, IDLE and which channels are closed, not at buffers. */
  ghost predicate SameShape(n: Session, n': Session) {
    && n'.registered == n.registered && n'.idle == n.idle
    && forall ch :: ch in n.chans ==> ch in n'.chans && n'.chans[ch].closes == n.chans[ch].closes
  }

  lemma SameShapeKeepsFlow(m: Main, crew: Crew, n: Session, n': Session, once: bool, once': bool)
    requires Flow(m, crew, n, once) && SameShape(n, n') && (once ==> once')
    ensures Flow(m, crew, n', once')
  {
  }

  lemma SameShapeKeepsSession(s: State, s': State)
    requires SessionInv(s) && SameShape(s.session, s'.session) && ChannelInv(s'.session)
    requires s'.main == s.main && s'.crew == s.crew && (s.closing.once ==> s'.closing.once)
    ensures SessionInv(s')
  {
    SameShapeKeepsFlow(s.main, s.crew, s.session, s'.session, s.closing.once, s'.closing.once);
    forall w | w in s.crew.workers
      ensures WorkerInv(s'.session, s.crew.workers[w])
    {
      assert WorkerInv(s.session, s.crew.workers[w]);
    }
  }

  lemma WaitKeepsSession(s: State, k: Case)
    requires SessionInv(s) && WaitStep(s, k).Some?
    ensures SessionInv(WaitStep(s, k).value)
  {
    var s' := WaitStep(s, k).value;
    assert SameShape(s.session, s'.session) && ChannelInv(s'.session);
    SameShapeKeepsSession(s, s'.(main := s.main));
  }

  lemma HandlerShape(s: State)
    requires ChannelInv(s.session) && HandlerStep(s).Some?
    ensures SameShape(s.session, HandlerStep(s).value.session) && ChannelInv(HandlerStep(s).value.session)
  {
  }

  lemma InitSession(s: State)
    requires Init(s)
    ensures SessionInv(s)
  {
  }

  lemma StopperLeavesSession(c: Config, s: State, k: Case)
    requires StopperStep(c, s, k).Some?
    ensures var s' := StopperStep(c, s, k).value;
            s'.main == s.main && s'.crew == s.crew && s'.session == s.session && (s.closing.once ==> s'.closing.once)
  {
  }

  lemma OthersLeaveSession(c: Config, s: State, a: Action)
    requires !a.MainMoves? && !a.WorkerMoves? && !a.HandlerMoves? && !a.StopperMoves?
    requires ChannelInv(s.session) && Next(c, s, a).Some?
    ensures var s' := Next(c, s, a).value;
            && s'.main == s.main && s'.crew == s.crew && (s.closing.once ==> s'.closing.once)
            && SameShape(s.session, s'.session) && ChannelInv(s'.session)
  {
  }

  lemma MainKeepsSession(c: Config, s: State, k: Case)
    requires SessionInv(s) && MainStep(c, s, k).Some?
    ensures SessionInv(MainStep(c, s, k).value)
  {
    var m := s.main;
    if m.Entry? || m.Gate? || m.GatePassed? {
      assert MainStep(c, s, k) == GateStep(s);
    } else if m.PhaseEnter? || m.PhaseWait? || m.PhasePoll? || m.PhaseClose? || m.PhaseDrain? || m.PhaseRet? {
      PhaseKeepsSession(c, s, k);
    } else if m.LoopTop? || m.MonEnter? || m.MonWait? || m.MonPoll? || m.MonClose? {
      MonKeepsSession(c, s, k);
    } else if m.Waiting? {
      WaitKeepsSession(s, k);
    } else {
      StopKeepsSession(c, s, k);
    }
  }

  lemma StepKeepsSession(c: Config, s: State, a: Action)
    requires SessionInv(s) && Next(c, s, a).Some?
    ensures SessionInv(Next(c, s, a).value)
  {
    var s' := Next(c, s, a).value;
    match a {
      case MainMoves(k) => MainKeepsSession(c, s, k);
      case WorkerMoves(w, ok) => WorkerKeepsSession(s, w, ok);
      case HandlerMoves => HandlerShape(s); SameShapeKeepsSession(s, s');
      case StopperMoves(k) => StopperLeavesSession(c, s, k); SameShapeKeepsSession(s, s');
      case _ => OthersLeaveSession(c, s, a); SameShapeKeepsSession(s, s');
    }
  }

  lemma {:induction false} SessionAlways(c: Config, s0: State, actions: seq<Action>)
    requires Init(s0) && Exec(c, s0, actions).Some?
    ensures SessionInv(Exec(c, s0, actions).value)
    decreases |actions|
  {
    if actions == [] {
      InitSession(s0);
    } else {
      var n := |actions| - 1;
      SessionAlways(c, s0, actions[..n]);
      StepKeepsSession(c, Exec(c, s0, actions[..n]).value, actions[n]);
    }
  }

  // ---- what it means ------------------------------------------------------------------------

  /** A worker that issues IMAP commands other than the end of an IDLE. */
  predicate Commanding(k: Worker) {
    k.Phase? || k.MonSelect? || k.MonIdle?
  }

  lemma SessionHolds(c: Config, s: State)
    requires Reached(c, s)
    ensures SessionInv(s)
  {
    var s0, actions :| Init(s0) && Exec(c, s0, actions) == Some(s);
    SessionAlways(c, s0, actions);
  }

  /** Session discipline: whoever issues commands is the only goroutine on the session and no
      IDLE is outstanding; and a goroutine that outlives Monitor does so only after the close
      of the transport was started. */
  lemma SessionDiscipline(c: Config, s: State, w: nat)
    requires Reached(c, s) && w in s.crew.workers
    ensures s.crew.workers.Keys == {w}
    ensures Commanding(s.crew.workers[w]) ==> s.session.idle == None
    ensures s.main.Returned? ==> s.closing.once
  {
    SessionHolds(c, s);
    assert WorkerInv(s.session, s.crew.workers[w]);
    assert forall v :: v in s.crew.workers ==> v == w;
  }

  /** A new phase, a new startMonitor and a new stop function find no other goroutine at work
      and, except for the stop function, no outstanding IDLE and no registered channel. */
  lemma CallsStartClean(c: Config, s: State)
    requires Reached(c, s)
    ensures s.main.PhaseEnter? || s.main.MonEnter? ==>
              s.crew.workers == map[] && s.session.idle == None && s.session.registered == None
    ensures s.main.StopEnter? ==>
              s.crew.workers == map[] && (s.main.idling <==> s.session.idle == Some(s.main.ch))
  {
    SessionHolds(c, s);
  }
}
