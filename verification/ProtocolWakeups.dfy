/** No mail is hidden by a lost wake-up: while the loop waits and the scan box is not empty,
    something is on its way that ends the wait. */
module ProtocolWakeups {
  import opened Wrappers
  import opened Protocol
  import opened ProtocolSession

  /** An update with a mail count is still to be handled. */
  ghost predicate PendingUpdate(u: seq<Option<nat>>) {
    exists i :: 0 <= i < |u| && u[i].Some?
  }

  /** The scan box is selected, and if it is not empty then an event is buffered, an update is
      being handled or still to be handled, or the mail came in the gap before the registration. */
  ghost predicate Covered(n: Session, v: Server, ch: nat) {
    && v.watching && ch in n.chans
    && (v.count > 0 ==> v.gapArrival || n.chans[ch].buf != [] || n.handler.HandlerHolds? || PendingUpdate(v.updates))
  }

  ghost predicate WorkerWoken(n: Session, v: Server, k: Worker) {
    match k
    case MonRegister(_) => v.watching && (v.count > 0 ==> v.gapArrival)
    case MonIdle(ch) => Covered(n, v, ch)
    case _ => true
  }

  ghost predicate MonitorWoken(n: Session, v: Server, ch: nat, idling: bool) {
    if idling then Covered(n, v, ch) else ch in n.chans && n.chans[ch].buf != []
  }

  ghost predicate ResultWoken(n: Session, v: Server, r: WorkerResult) {
    r.MonOk? ==> MonitorWoken(n, v, r.ch, r.idling)
  }

  ghost predicate MainWoken(m: Main, crew: Crew, n: Session, v: Server) {
    match m
    case MonWait(w, _) => w in crew.results ==> ResultWoken(n, v, crew.results[w])
    case MonPoll(w) => w in crew.results ==> ResultWoken(n, v, crew.results[w])
    case Waiting(ch, idling, _, _) => MonitorWoken(n, v, ch, idling)
    case _ => true
  }

  ghost predicate WakeInv(s: State) {
    && (forall w :: w in s.crew.workers ==> WorkerWoken(s.session, s.server, s.crew.workers[w]))
    && MainWoken(s.main, s.crew, s.session, s.server)
  }

  lemma PhaseKeepsWake(c: Config, s: State, k: Case)
    requires SessionInv(s) && WakeInv(s) && PhaseStep(c, s, k).Some?
    ensures WakeInv(PhaseStep(c, s, k).value)
  {
  }

  lemma MonKeepsWake(c: Config, s: State, k: Case)
    requires SessionInv(s) && WakeInv(s) && MonStep(c, s, k).Some?
    ensures WakeInv(MonStep(c, s, k).value)
  {
  }

  lemma WaitKeepsWake(s: State, k: Case)
    requires SessionInv(s) && s.main.Waiting? && WaitStep(s, k).Some?
    ensures WakeInv(WaitStep(s, k).value)
  {
  }

  lemma StopKeepsWake(c: Config, s: State, k: Case)
    requires SessionInv(s) && WakeInv(s) && StopStep(c, s, k).Some?
    ensures WakeInv(StopStep(c, s, k).value)
  {
  }

  lemma MainKeepsWake(c: Config, s: State, k: Case)
    requires SessionInv(s) && WakeInv(s) && MainStep(c, s, k).Some?
    ensures WakeInv(MainStep(c, s, k).value)
  {
    var m := s.main;
    if m.PhaseEnter? || m.PhaseWait? || m.PhasePoll? || m.PhaseClose? || m.PhaseDrain? || m.PhaseRet? {
      PhaseKeepsWake(c, s, k);
    } else if m.LoopTop? || m.MonEnter? || m.MonWait? || m.MonPoll? || m.MonClose? {
      MonKeepsWake(c, s, k);
    } else if m.Waiting? {
      WaitKeepsWake(s, k);
    } else if !m.Entry? && !m.Gate? && !m.GatePassed? {
      StopKeepsWake(c, s, k);
    }
  }

  lemma MonWorkerKeepsWake(s: State, w: nat, k: Worker, ok: bool)
    requires SessionInv(s) && WakeInv(s) && w in s.crew.workers && s.crew.workers[w] == k
    requires MonWorkerStep(s, w, k, ok).Some?
    ensures WakeInv(MonWorkerStep(s, w, k, ok).value)
  {
    assert WorkerInv(s.session, k) && WorkerWoken(s.session, s.server, k);
  }

  /** Only the monitor's own worker runs while the main goroutine waits for it. */
  lemma WorkerKeepsWake(s: State, w: nat, ok: bool)
    requires SessionInv(s) && WakeInv(s) && WorkerStep(s, w, ok).Some?
    ensures WakeInv(WorkerStep(s, w, ok).value)
  {
    var k := s.crew.workers[w];
    assert WorkerInv(s.session, k) && WorkerWoken(s.session, s.server, k);
    if KindOf(k) == MonKind {
      MonWorkerKeepsWake(s, w, k, ok);
    }
  }

  /** A phase never runs while a monitor is started or waited on. */
  lemma PhaseCommandKeepsWake(s: State, w: nat, watching: bool, count: nat)
    requires SessionInv(s) && WakeInv(s) && PhaseCommand(s, w, watching, count).Some?
    ensures WakeInv(PhaseCommand(s, w, watching, count).value)
  {
  }

  lemma CoveredAfterHandler(s: State, ch: nat)
    requires ChannelInv(s.session) && HandlerStep(s).Some?
    requires Covered(s.session, s.server, ch) && s.session.registered == Some(ch)
    ensures Covered(HandlerStep(s).value.session, HandlerStep(s).value.server, ch)
  {
    var u, u' := s.server.updates, HandlerStep(s).value.server.updates;
    if s.session.handler.HandlerIdle? && u[0].None? && PendingUpdate(u) {
      var i :| 0 <= i < |u| && u[i].Some?;
      assert u'[i - 1].Some?;
    }
  }

  lemma MonitorWokenAfterHandler(s: State, ch: nat, idling: bool)
    requires ChannelInv(s.session) && HandlerStep(s).Some?
    requires Monitoring(s.session, ch, idling) && MonitorWoken(s.session, s.server, ch, idling)
    ensures MonitorWoken(HandlerStep(s).value.session, HandlerStep(s).value.server, ch, idling)
  {
    if idling {
      CoveredAfterHandler(s, ch);
    }
  }

  lemma HandlerKeepsMainWake(s: State)
    requires SessionInv(s) && WakeInv(s) && HandlerStep(s).Some?
    ensures MainWoken(s.main, s.crew, HandlerStep(s).value.session, HandlerStep(s).value.server)
  {
    match s.main
    case MonWait(w, _) =>
      if w in s.crew.results && s.crew.results[w].MonOk? {
        MonitorWokenAfterHandler(s, s.crew.results[w].ch, s.crew.results[w].idling);
      }
    case MonPoll(w) =>
      if w in s.crew.results && s.crew.results[w].MonOk? {
        MonitorWokenAfterHandler(s, s.crew.results[w].ch, s.crew.results[w].idling);
      }
    case Waiting(ch, idling, _, _) => MonitorWokenAfterHandler(s, ch, idling);
    case _ =>
  }

  lemma HandlerKeepsWake(s: State)
    requires SessionInv(s) && WakeInv(s) && HandlerStep(s).Some?
    ensures WakeInv(HandlerStep(s).value)
  {
    var s' := HandlerStep(s).value;
    forall w | w in s.crew.workers
      ensures WorkerWoken(s'.session, s'.server, s.crew.workers[w])
    {
      var k := s.crew.workers[w];
      assert WorkerInv(s.session, k) && WorkerWoken(s.session, s.server, k);
      if k.MonIdle? {
        CoveredAfterHandler(s, k.ch);
      }
    }
    HandlerKeepsMainWake(s);
  }

  lemma CoveredAfterArrival(s: State, ch: nat)
    requires Covered(s.session, s.server, ch)
    ensures Covered(s.session, Arrive(s), ch)
  {
    var u := Arrive(s).updates;
    assert u[|u| - 1].Some?;
  }

  lemma ArrivalKeepsWake(s: State)
    requires SessionInv(s) && WakeInv(s)
    ensures WakeInv(s.(server := Arrive(s)))
  {
    forall ch | Covered(s.session, s.server, ch)
      ensures Covered(s.session, Arrive(s), ch)
    {
      CoveredAfterArrival(s, ch);
    }
    forall w | w in s.crew.workers
      ensures WorkerWoken(s.session, Arrive(s), s.crew.workers[w])
    {
      assert WorkerWoken(s.session, s.server, s.crew.workers[w]);
    }
  }

  lemma UpdateKeepsWake(s: State, u: Option<nat>)
    requires WakeInv(s)
    ensures WakeInv(s.(server := s.server.(updates := s.server.updates + [u])))
  {
    var v, v' := s.server, s.server.(updates := s.server.updates + [u]);
    if PendingUpdate(v.updates) {
      var i :| 0 <= i < |v.updates| && v.updates[i].Some?;
      assert v'.updates[i].Some?;
    }
    forall w | w in s.crew.workers
      ensures WorkerWoken(s.session, v', s.crew.workers[w])
    {
      assert WorkerWoken(s.session, v, s.crew.workers[w]);
    }
  }

  lemma OthersLeaveWake(c: Config, s: State, a: Action)
    requires a.StopperMoves? || a.CloserMoves? || a.ParentCancels? || a.ConnectionLost? || a.Tick?
    requires WakeInv(s) && Next(c, s, a).Some?
    ensures WakeInv(Next(c, s, a).value)
  {
    forall w | w in s.crew.workers
      ensures WorkerWoken(Next(c, s, a).value.session, s.server, s.crew.workers[w])
    {
      assert WorkerWoken(s.session, s.server, s.crew.workers[w]);
    }
  }

  lemma StepKeepsWake(c: Config, s: State, a: Action)
    requires SessionInv(s) && WakeInv(s) && Next(c, s, a).Some?
    ensures WakeInv(Next(c, s, a).value)
  {
    match a
    case MainMoves(k) => MainKeepsWake(c, s, k);
    case WorkerMoves(w, ok) => WorkerKeepsWake(s, w, ok);
    case PhaseCommands(w, watching, count) => PhaseCommandKeepsWake(s, w, watching, count);
    case HandlerMoves => HandlerKeepsWake(s);
    case MailArrives => ArrivalKeepsWake(s);
    case ServerUpdates(u) => UpdateKeepsWake(s, u);
    case _ => OthersLeaveWake(c, s, a);
  }

  lemma {:induction false} WakeAlways(c: Config, s0: State, actions: seq<Action>)
    requires Init(s0) && Exec(c, s0, actions).Some?
    ensures WakeInv(Exec(c, s0, actions).value)
    decreases |actions|
  {
    if actions != [] {
      var n := |actions| - 1;
      SessionAlways(c, s0, actions[..n]);
      WakeAlways(c, s0, actions[..n]);
      StepKeepsWake(c, Exec(c, s0, actions[..n]).value, actions[n]);
    }
  }

  /** Whenever the loop waits while the scan box is not empty, an event is buffered, an update
      is undelivered or in delivery, or the mail came between the SELECT reply and the
      registration of the channel. A buffered event ends the wait before time passes, whatever
      count it carries. */
  lemma NoLostWakeup(c: Config, s: State, t: int)
    requires Reached(c, s) && s.main.Waiting? && s.server.count > 0
    ensures var ch := s.main.ch;
            if ch in s.session.chans && s.session.chans[ch].buf != [] then
              !MayTick(s, t) && WaitStep(s, TakeEvent).Some? && WaitStep(s, TakeEvent).value.main.StopEnter?
            else
              s.main.idling && s.server.watching
              && (PendingUpdate(s.server.updates) || s.session.handler.HandlerHolds? || s.server.gapArrival)
  {
    var s0, actions :| Init(s0) && Exec(c, s0, actions) == Some(s);
    WakeAlways(c, s0, actions);
  }

  /** The step out of a wait has the cause it gives. */
  predicate WokenBy(s: State, s': State) {
    && s.main.Waiting? && s'.main.StopEnter? && !s'.main.reason.ChannelClosed?
    && (s'.main.reason.CtxDone? ==> s.down.cancelled)
    && (s'.main.reason.ConnDone? ==> s.session.connClosed)
    && (s'.main.reason.Event? ==>
          && s.main.ch in s.session.chans && s.main.ch in s'.session.chans
          && s.session.chans[s.main.ch].buf == [s'.main.reason.count] + s'.session.chans[s.main.ch].buf)
  }

  lemma WaitStepHasCause(s: State, k: Case)
    requires s.main.Waiting? && Monitoring(s.session, s.main.ch, s.main.idling) && WaitStep(s, k).Some?
    requires MonitorWoken(s.session, s.server, s.main.ch, s.main.idling)
    ensures WokenBy(s, WaitStep(s, k).value)
  {
  }

  /** A wait ends for the reason it gives: after a cancellation, on a dead connection, or with the very
      event that was buffered; that the channel is closed is never the reason. */
  lemma WaitsEndForAReason(c: Config, s: State, k: Case)
    requires Reached(c, s) && s.main.Waiting? && MainStep(c, s, k).Some?
    ensures WokenBy(s, MainStep(c, s, k).value)
  {
    var s0, actions :| Init(s0) && Exec(c, s0, actions) == Some(s);
    SessionAlways(c, s0, actions);
    WakeAlways(c, s0, actions);
    WaitStepHasCause(s, k);
  }
}
