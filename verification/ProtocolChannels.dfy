/** The life of the event channels: each is closed exactly once. */
module ProtocolChannels {
  import opened Protocol
  import opened ProtocolSession
  import opened Wrappers

  predicate WorkerOwns(k: Worker, ch: nat) {
    match k
    case MonRegister(c) => c == ch
    case MonIdle(c) => c == ch
    case MonUnregister(c) => c == ch
    case MonCloseCh(c) => c == ch
    case StopIdle(c) => c == ch
    case StopUnregister(c, _) => c == ch
    case StopCloseCh(c, _) => c == ch
    case _ => false
  }

  /** The worker the main goroutine waits for will close the channel. */
  predicate Entrusted(crew: Crew, w: nat, ch: nat) {
    w in crew.workers && WorkerOwns(crew.workers[w], ch)
  }

  /** Who still has to close the channel, unless Monitor is on its way to return. */
  predicate Owned(m: Main, crew: Crew, ch: nat) {
    match m
    case MonWait(w, _) => Entrusted(crew, w, ch) || (w in crew.results && crew.results[w] == MonOk(ch, true))
    case MonPoll(w) => Entrusted(crew, w, ch) || (w in crew.results && crew.results[w] == MonOk(ch, true))
    case MonClose(_) => true
    case Waiting(c, idling, _, _) => idling && c == ch
    case StopEnter(c, idling, _) => idling && c == ch
    case StopWait(w, _, _) => Entrusted(crew, w, ch)
    case StopClose(w, _, _) => Entrusted(crew, w, ch)
    case StopDrain(w, _, _) => Entrusted(crew, w, ch)
    case StopRet(_, ok) => !ok
    case Returned(_) => true
    case _ => false
  }

  /** Every open channel has an owner. */
  ghost predicate OpenInv(m: Main, crew: Crew, n: Session) {
    forall ch :: ch in n.chans && n.chans[ch].closes == 0 ==> Owned(m, crew, ch)
  }

  /** A goroutine left behind by a phase is a phase. */
  ghost predicate PhaseLeftover(m: Main, crew: Crew) {
    m.PhaseRet? || m.Post? ==> forall w :: w in crew.workers ==> KindOf(crew.workers[w]) == PhaseKind
  }

  ghost predicate OpenOwned(s: State) {
    OpenInv(s.main, s.crew, s.session) && PhaseLeftover(s.main, s.crew)
  }

  lemma PhaseKeepsOpen(c: Config, s: State, k: Case)
    requires SessionInv(s) && OpenOwned(s) && PhaseStep(c, s, k).Some?
    ensures OpenOwned(PhaseStep(c, s, k).value)
  {
  }

  lemma MonKeepsOpen(c: Config, s: State, k: Case)
    requires SessionInv(s) && OpenOwned(s) && MonStep(c, s, k).Some?
    ensures OpenOwned(MonStep(c, s, k).value)
  {
  }

  lemma WaitKeepsOpen(s: State, k: Case)
    requires SessionInv(s) && OpenOwned(s) && WaitStep(s, k).Some?
    ensures OpenOwned(WaitStep(s, k).value)
  {
  }

  lemma StopKeepsOpen(c: Config, s: State, k: Case)
    requires SessionInv(s) && OpenOwned(s) && StopStep(c, s, k).Some?
    ensures OpenOwned(StopStep(c, s, k).value)
  {
  }

  lemma MainKeepsOpen(c: Config, s: State, k: Case)
    requires SessionInv(s) && OpenOwned(s) && MainStep(c, s, k).Some?
    ensures OpenOwned(MainStep(c, s, k).value)
  {
    var m := s.main;
    if m.PhaseEnter? || m.PhaseWait? || m.PhasePoll? || m.PhaseClose? || m.PhaseDrain? || m.PhaseRet? {
      PhaseKeepsOpen(c, s, k);
    } else if m.LoopTop? || m.MonEnter? || m.MonWait? || m.MonPoll? || m.MonClose? {
      MonKeepsOpen(c, s, k);
    } else if m.Waiting? {
      WaitKeepsOpen(s, k);
    } else if !m.Entry? && !m.Gate? && !m.GatePassed? {
      StopKeepsOpen(c, s, k);
    }
  }

  /** SELECT: a new channel is made, closed already if there are mails. */
  lemma MonSelectKeepsOpen(s: State, w: nat, ok: bool)
    requires SessionInv(s) && OpenOwned(s) && w in s.crew.workers && s.crew.workers[w] == MonSelect
    ensures OpenOwned(MonWorkerStep(s, w, MonSelect, ok).value)
  {
    assert WorkerInv(s.session, MonSelect);
  }

  lemma MonLaterKeepsOpen(s: State, w: nat, k: Worker, ok: bool)
    requires SessionInv(s) && OpenOwned(s) && w in s.crew.workers && s.crew.workers[w] == k
    requires k.MonRegister? || k.MonIdle? || k.MonUnregister?
    requires MonWorkerStep(s, w, k, ok).Some?
    ensures OpenOwned(MonWorkerStep(s, w, k, ok).value)
  {
    assert WorkerInv(s.session, k);
  }

  lemma MonCloseKeepsOpen(s: State, w: nat, ch: nat, ok: bool)
    requires SessionInv(s) && OpenOwned(s) && w in s.crew.workers && s.crew.workers[w] == MonCloseCh(ch)
    ensures OpenOwned(MonWorkerStep(s, w, MonCloseCh(ch), ok).value)
  {
    assert WorkerInv(s.session, MonCloseCh(ch));
  }

  /** The worker that moves is the one the main goroutine waits for. */
  lemma MonWorkerKeepsOpen(s: State, w: nat, k: Worker, ok: bool)
    requires SessionInv(s) && OpenOwned(s) && w in s.crew.workers && s.crew.workers[w] == k
    requires MonWorkerStep(s, w, k, ok).Some?
    ensures OpenOwned(MonWorkerStep(s, w, k, ok).value)
  {
    match k
    case MonSelect => MonSelectKeepsOpen(s, w, ok);
    case MonCloseCh(ch) => MonCloseKeepsOpen(s, w, ch, ok);
    case _ => MonLaterKeepsOpen(s, w, k, ok);
  }

  lemma StopWorkerKeepsOpen(s: State, w: nat, k: Worker, ok: bool)
    requires SessionInv(s) && OpenOwned(s) && w in s.crew.workers && s.crew.workers[w] == k
    requires StopWorkerStep(s, w, k, ok).Some?
    ensures OpenOwned(StopWorkerStep(s, w, k, ok).value)
  {
    assert WorkerInv(s.session, k);
  }

  lemma WorkerKeepsOpen(s: State, w: nat, ok: bool)
    requires SessionInv(s) && OpenOwned(s) && WorkerStep(s, w, ok).Some?
    ensures OpenOwned(WorkerStep(s, w, ok).value)
  {
    var k := s.crew.workers[w];
    match KindOf(k)
    case PhaseKind =>
    case MonKind => MonWorkerKeepsOpen(s, w, k, ok);
    case StopKind => StopWorkerKeepsOpen(s, w, k, ok);
  }

  lemma HandlerKeepsOpen(s: State)
    requires ChannelInv(s.session) && OpenOwned(s) && HandlerStep(s).Some?
    ensures OpenOwned(HandlerStep(s).value)
  {
  }

  lemma OthersLeaveOpen(c: Config, s: State, a: Action)
    requires !a.MainMoves? && !a.WorkerMoves? && !a.HandlerMoves? && Next(c, s, a).Some?
    ensures var s' := Next(c, s, a).value;
            s'.main == s.main && s'.crew == s.crew && s'.session.chans == s.session.chans
  {
  }

  lemma StepKeepsOpen(c: Config, s: State, a: Action)
    requires SessionInv(s) && OpenOwned(s) && Next(c, s, a).Some?
    ensures OpenOwned(Next(c, s, a).value)
  {
    match a
    case MainMoves(k) => MainKeepsOpen(c, s, k);
    case WorkerMoves(w, ok) => WorkerKeepsOpen(s, w, ok);
    case HandlerMoves => HandlerKeepsOpen(s);
    case _ => OthersLeaveOpen(c, s, a);
  }

  lemma {:induction false} OpenAlways(c: Config, s0: State, actions: seq<Action>)
    requires Init(s0) && Exec(c, s0, actions).Some?
    ensures OpenOwned(Exec(c, s0, actions).value)
    decreases |actions|
  {
    if actions != [] {
      var n := |actions| - 1;
      SessionAlways(c, s0, actions[..n]);
      OpenAlways(c, s0, actions[..n]);
      StepKeepsOpen(c, Exec(c, s0, actions[..n]).value, actions[n]);
    }
  }

  // ---- what it means --------------------------------------------------------------------

  ghost predicate AllClosedOnce(n: Session) {
    forall ch :: ch in n.chans ==> n.chans[ch].closes == 1
  }

  /** No monitor is being started, waited on or stopped, and Monitor is not about to return. */
  predicate BetweenMonitors(m: Main) {
    m.PhaseEnter? || m.PhaseWait? || m.PhasePoll? || m.PhaseClose? || m.PhaseDrain? || m.PhaseRet?
    || m.LoopTop? || m.MonEnter? || m.Post? || (m.StopRet? && m.ok)
  }

  /** The stop function that is waited for has finished. */
  predicate StopFinished(s: State) {
    (s.main.StopWait? || s.main.StopClose? || s.main.StopDrain?) && s.main.w in s.crew.results
  }

  /** The event channels: a registered one is open, nothing is sent on a closed one, and a channel
      holds at most one event; each is closed at most once, and exactly once when its stop function
      has finished and whenever no monitor is started, waited on or stopped; and a handler that
      holds the mutex can always finish. */
  lemma ChannelLifeCycle(c: Config, s: State)
    requires Reached(c, s)
    ensures s.session.registered.Some? ==> OpenCh(s.session, s.session.registered.value)
    ensures !s.session.panicked
    ensures forall ch :: ch in s.session.chans ==> s.session.chans[ch].closes <= 1 && |s.session.chans[ch].buf| <= 1
    ensures BetweenMonitors(s.main) || StopFinished(s) ==> AllClosedOnce(s.session)
    ensures s.session.handler.HandlerHolds? ==>
              HandlerStep(s).Some? && HandlerStep(s).value.session.handler == HandlerIdle
  {
    var s0, actions :| Init(s0) && Exec(c, s0, actions) == Some(s);
    SessionAlways(c, s0, actions);
    OpenAlways(c, s0, actions);
  }
}
