/** Shutdown: the transport is closed once, its error is read only after it was written, and
    no run starts behind Stop's back. */
module ProtocolShutdown {
  import opened Wrappers
  import opened Protocol

  /** At most one goroutine was started, and it takes its three steps one after the other. */
  predicate CloseInv(c: Closing) {
    && (!c.once ==> c.calls == 0 && c.spawned == 0)
    && c.calls + c.spawned <= 1
    && c.calling + c.errWrites == c.calls
    && c.wrote + c.doneCloses == c.errWrites
  }

  /** Monitor has passed its gate and has not returned. */
  predicate Counted(m: Main) {
    !m.Entry? && !m.Gate? && !m.GatePassed? && !m.Returned?
  }

  predicate GateInv(m: Main, d: Shutdown) {
    && (d.runMu == ByMain <==> m.Gate? || m.GatePassed?)
    && (d.runMu == ByStop <==> d.stopper.StopLocked?)
    && (d.stopCancelled <==> !d.stopper.StopNotCalled? && !d.stopper.StopLocked?)
    && (d.stopCancelled ==> d.cancelled && !m.GatePassed?)
    && d.wgRun == (if Counted(m) then 1 else 0)
    && (d.stopper == StopReturned(false) ==> !Counted(m))
    && !d.lateAdd
  }

  /** Every successful startMonitor but the one being waited on had its stop function invoked once. */
  predicate MonitorsStopped(m: Main, a: Audit) {
    a.starts == a.stops + (if m.Waiting? || m.StopEnter? then 1 else 0)
  }

  predicate ShutdownInv(s: State) {
    GateInv(s.main, s.down) && MonitorsStopped(s.main, s.audit)
  }

  // ---- closing the transport --------------------------------------------------------

  lemma StartCloseKeeps(c: Closing)
    requires CloseInv(c)
    ensures CloseInv(StartClose(c))
  {
  }

  lemma CloserKeepsClosing(s: State, m: CloserMove)
    requires CloseInv(s.closing) && CloserStep(s, m).Some?
    ensures CloseInv(CloserStep(s, m).value.closing)
  {
  }

  /** The main goroutine does no more to the transport than to start its close. */
  lemma MainOnlyStartsClose(c: Config, s: State, k: Case)
    requires MainStep(c, s, k).Some?
    ensures MainStep(c, s, k).value.closing in {s.closing, StartClose(s.closing)}
  {
  }

  lemma WorkerLeavesShutdown(s: State, w: nat, ok: bool)
    requires WorkerStep(s, w, ok).Some?
    ensures var s' := WorkerStep(s, w, ok).value;
            s'.main == s.main && s'.closing == s.closing && s'.down == s.down && s'.audit == s.audit && s'.now == s.now
            && s'.lastLearnAt == s.lastLearnAt
  {
  }

  lemma OthersOnlyStartClose(c: Config, s: State, a: Action)
    requires !a.CloserMoves? && Next(c, s, a).Some?
    ensures Next(c, s, a).value.closing in {s.closing, StartClose(s.closing)}
  {
    match a
    case MainMoves(k) => MainOnlyStartsClose(c, s, k);
    case WorkerMoves(w, ok) => WorkerLeavesShutdown(s, w, ok);
    case _ =>
  }

  // ---- runs, monitors and Stop ---------------------------------------------------------

  lemma PhaseRetKeepsShutdown(c: Config, s: State, k: Case)
    requires ShutdownInv(s) && s.main.PhaseRet?
    ensures ShutdownInv(PhaseStep(c, s, k).value)
  {
  }

  lemma PhaseKeepsShutdown(c: Config, s: State, k: Case)
    requires ShutdownInv(s) && PhaseStep(c, s, k).Some?
    ensures ShutdownInv(PhaseStep(c, s, k).value)
  {
    if s.main.PhaseRet? {
      PhaseRetKeepsShutdown(c, s, k);
    }
  }

  lemma MonKeepsShutdown(c: Config, s: State, k: Case)
    requires ShutdownInv(s) && MonStep(c, s, k).Some?
    ensures ShutdownInv(MonStep(c, s, k).value)
  {
  }

  lemma WaitKeepsShutdown(s: State, k: Case)
    requires ShutdownInv(s) && WaitStep(s, k).Some?
    ensures ShutdownInv(WaitStep(s, k).value)
  {
  }

  lemma StopKeepsShutdown(c: Config, s: State, k: Case)
    requires ShutdownInv(s) && StopStep(c, s, k).Some?
    ensures ShutdownInv(StopStep(c, s, k).value)
  {
  }

  lemma GateKeepsShutdown(s: State)
    requires ShutdownInv(s) && GateStep(s).Some?
    ensures ShutdownInv(GateStep(s).value)
  {
  }

  lemma MainKeepsShutdown(c: Config, s: State, k: Case)
    requires ShutdownInv(s) && MainStep(c, s, k).Some?
    ensures ShutdownInv(MainStep(c, s, k).value)
  {
    var m := s.main;
    if m.Entry? || m.Gate? || m.GatePassed? {
      GateKeepsShutdown(s);
    } else if m.PhaseEnter? || m.PhaseWait? || m.PhasePoll? || m.PhaseClose? || m.PhaseDrain? || m.PhaseRet? {
      PhaseKeepsShutdown(c, s, k);
    } else if m.LoopTop? || m.MonEnter? || m.MonWait? || m.MonPoll? || m.MonClose? {
      MonKeepsShutdown(c, s, k);
    } else if m.Waiting? {
      WaitKeepsShutdown(s, k);
    } else {
      StopKeepsShutdown(c, s, k);
    }
  }

  lemma StopperKeepsShutdown(c: Config, s: State, k: Case)
    requires ShutdownInv(s) && StopperStep(c, s, k).Some?
    ensures ShutdownInv(StopperStep(c, s, k).value)
  {
  }

  lemma StepKeepsShutdown(c: Config, s: State, a: Action)
    requires ShutdownInv(s) && Next(c, s, a).Some?
    ensures ShutdownInv(Next(c, s, a).value)
  {
    match a
    case MainMoves(k) => MainKeepsShutdown(c, s, k);
    case WorkerMoves(w, ok) => WorkerLeavesShutdown(s, w, ok);
    case StopperMoves(k) => StopperKeepsShutdown(c, s, k);
    case _ =>
  }

  lemma ClosingAfterStep(c: Config, s: State, a: Action, s': State)
    requires Next(c, s, a) == Some(s')
    ensures CloseInv(s.closing) ==> CloseInv(s'.closing)
  {
    if CloseInv(s.closing) {
      StartCloseKeeps(s.closing);
      if a.CloserMoves? {
        CloserKeepsClosing(s, a.m);
      } else {
        OthersOnlyStartClose(c, s, a);
      }
    }
  }

  lemma {:induction false} ShutdownAlways(c: Config, s0: State, actions: seq<Action>)
    requires Init(s0) && Exec(c, s0, actions).Some?
    ensures ShutdownInv(Exec(c, s0, actions).value) && CloseInv(Exec(c, s0, actions).value.closing)
    decreases |actions|
  {
    if actions != [] {
      var n := |actions| - 1;
      ShutdownAlways(c, s0, actions[..n]);
      StepKeepsShutdown(c, Exec(c, s0, actions[..n]).value, actions[n]);
      ClosingAfterStep(c, Exec(c, s0, actions[..n]).value, actions[n], Exec(c, s0, actions).value);
    }
  }

  // ---- what it means ----------------------------------------------------------------

  lemma ShutdownHolds(c: Config, s: State)
    requires Reached(c, s)
    ensures ShutdownInv(s) && CloseInv(s.closing)
  {
    var s0, actions :| Init(s0) && Exec(c, s0, actions) == Some(s);
    ShutdownAlways(c, s0, actions);
  }

  /** Under every interleaving of Stop, phase timeouts and IDLE-stop timeouts: the transport's
      Close is called at most once, its done channel is closed at most once, and when it is
      closed the close error has been written, so no reader sees it unwritten. */
  lemma TransportClosedOnce(c: Config, s: State)
    requires Reached(c, s)
    ensures var x := s.closing;
            x.calls <= 1 && x.errWrites <= 1 && x.doneCloses <= 1 && (x.doneCloses == 1 ==> x.errWrites == 1)
  {
    ShutdownHolds(c, s);
  }

  lemma StopCancelledStays(c: Config, s: State, a: Action)
    requires ShutdownInv(s) && Next(c, s, a).Some? && s.down.stopCancelled
    ensures var s' := Next(c, s, a).value;
            s'.down.stopCancelled && s'.down.wgRun <= s.down.wgRun
  {
    match a
    case WorkerMoves(w, ok) => WorkerLeavesShutdown(s, w, ok);
    case _ =>
  }

  /** Once Stop has cancelled under runMu, no step adds a run to wgRun; so wgRun.Wait never
      races with Add, and when Stop returns in time no run is left. */
  lemma NoRunAfterStop(c: Config, s: State, a: Action)
    requires Reached(c, s) && Next(c, s, a).Some?
    ensures var down := Next(c, s, a).value.down;
            s.down.stopCancelled ==> down.stopCancelled && down.wgRun <= s.down.wgRun
    ensures s.down.stopper == StopReturned(false) ==> s.down.wgRun == 0 && !Counted(s.main)
    ensures !s.down.lateAdd
  {
    ShutdownHolds(c, s);
    if s.down.stopCancelled {
      StopCancelledStays(c, s, a);
    }
  }

  /** Each successful startMonitor has its stop function invoked exactly once before the loop
      goes on or Monitor returns. */
  lemma EachMonitorStoppedOnce(c: Config, s: State)
    requires Reached(c, s)
    ensures s.audit.starts == s.audit.stops + (if s.main.Waiting? || s.main.StopEnter? then 1 else 0)
  {
    ShutdownHolds(c, s);
  }
}
