/** How long the calls of the monitor can take on the logical clock, even if every IMAP call
    blocks forever: each wait is bounded by a timer, and time never has to stop. */
module ProtocolTiming {
  import opened Wrappers
  import opened Protocol

  // ---- where the clock can be, by what the main goroutine does --------------------------

  /** A wait of at most shutdownTimeout is under way and ends by the bound. */
  predicate Bounded(c: Config, now: int, deadline: int, bound: int) {
    now <= deadline && deadline <= now + c.shutdown && deadline <= bound
  }

  predicate CallTime(c: Config, now: int, m: Main, callAt: int) {
    match m
    case PhaseWait(_, _, deadline) => callAt <= now <= deadline && deadline == callAt + c.op
    case PhasePoll(_, _) => callAt <= now <= callAt + c.op
    case PhaseClose(_, _, deadline) =>
      Bounded(c, now, deadline, callAt + c.op + c.shutdown) && callAt + c.shutdown <= deadline
    case PhaseDrain(_, _, deadline) => Bounded(c, now, deadline, callAt + c.op + 2 * c.shutdown)
    case PhaseRet(_, ok) => now <= callAt + c.op + (if ok then 0 else 2 * c.shutdown)
    case MonWait(_, deadline) => callAt <= now <= deadline && deadline == callAt + c.op
    case MonPoll(_) => callAt <= now <= callAt + c.op
    case MonClose(deadline) =>
      Bounded(c, now, deadline, callAt + c.op + c.shutdown) && callAt + c.shutdown <= deadline
    case Waiting(_, _, learnAt, idleAt) => now <= learnAt && now <= idleAt
    case StopWait(_, _, deadline) => Bounded(c, now, deadline, callAt + c.shutdown)
    case StopClose(_, _, deadline) => Bounded(c, now, deadline, callAt + 2 * c.shutdown)
    case StopDrain(_, _, deadline) => Bounded(c, now, deadline, callAt + 3 * c.shutdown)
    case StopRet(_, _) => now <= callAt + 3 * c.shutdown
    case _ => true
  }

  /** The same, counted from the cancellation. */
  predicate CancelTime(c: Config, now: int, m: Main, a: Audit) {
    match m
    case Entry => true
    case Gate => now <= a.startedAt
    case GatePassed => now <= a.cancelAt
    case PhaseWait(_, _, _) => now <= a.cancelAt
    case PhasePoll(_, _) => now <= a.cancelAt
    case PhaseClose(_, _, deadline) => deadline <= a.cancelAt + c.shutdown
    case PhaseDrain(_, _, deadline) => deadline <= a.cancelAt + 2 * c.shutdown
    case MonWait(_, _) => now <= a.cancelAt
    case MonPoll(_) => now <= a.cancelAt
    case MonClose(deadline) => deadline <= a.cancelAt + c.shutdown
    case Waiting(_, _, _, _) => now <= a.cancelAt
    case StopEnter(_, _, _) => now <= a.cancelAt
    case StopWait(_, _, deadline) => deadline <= a.cancelAt + c.shutdown
    case StopClose(_, _, deadline) => deadline <= a.cancelAt + 2 * c.shutdown
    case StopDrain(_, _, deadline) => deadline <= a.cancelAt + 3 * c.shutdown
    case Returned(_) => a.returnedAt <= a.cancelAt + 3 * c.shutdown || a.returnedAt <= a.startedAt
    case _ => now <= a.cancelAt + 3 * c.shutdown
  }

  /** How long after the last look at the scan box a phase starts. */
  function LookSlack(c: Config, site: Site): int {
    match site
    case OnceHam => 0
    case OnceSpam => c.op
    case OnceScan => 2 * c.op
    case PerScan => c.op + c.idle + 3 * c.shutdown
    case EventScan => c.op + c.idle + 3 * c.shutdown
    case PerHam => 2 * c.op + c.idle + 3 * c.shutdown
    case PerSpam => 3 * c.op + c.idle + 3 * c.shutdown
  }

  predicate LookTime(c: Config, now: int, m: Main, a: Audit) {
    match m
    case PhaseEnter(site) => now <= a.lookAt + LookSlack(c, site)
    case PhaseWait(site, _, _) => a.callAt <= a.lookAt + LookSlack(c, site)
    case PhasePoll(site, _) => a.callAt <= a.lookAt + LookSlack(c, site)
    case PhaseClose(site, _, _) => a.callAt <= a.lookAt + LookSlack(c, site)
    case PhaseDrain(site, _, _) => a.callAt <= a.lookAt + LookSlack(c, site)
    case PhaseRet(site, _) => a.callAt <= a.lookAt + LookSlack(c, site)
    case LoopTop => now <= a.lookAt + 4 * c.op + c.idle + 3 * c.shutdown
    case MonEnter => now <= a.lookAt + 4 * c.op + c.idle + 3 * c.shutdown
    case MonWait(_, _) => a.callAt == a.lookAt
    case MonPoll(_) => a.callAt == a.lookAt
    case MonClose(_) => a.callAt == a.lookAt
    case Waiting(_, _, _, idleAt) => idleAt <= a.lookAt + c.op + c.idle
    case StopEnter(_, _, _) => now <= a.lookAt + c.op + c.idle
    case StopWait(_, _, _) => a.callAt <= a.lookAt + c.op + c.idle
    case StopClose(_, _, _) => a.callAt <= a.lookAt + c.op + c.idle
    case StopDrain(_, _, _) => a.callAt <= a.lookAt + c.op + c.idle
    case StopRet(_, _) => a.callAt <= a.lookAt + c.op + c.idle
    case Post(failed) => now <= a.lookAt + 4 * c.op + c.idle + (if failed then 5 else 3) * c.shutdown
    case _ => true
  }

  predicate StopTime(c: Config, now: int, p: Stopper, a: Audit) {
    match p
    case StopNotCalled => true
    case StopLocked => now <= a.stopAt
    case StopUnlocked => now <= a.stopAt
    case StopClosing(deadline) => Bounded(c, now, deadline, a.stopAt + c.shutdown)
    case StopJoining(deadline) => Bounded(c, now, deadline, a.stopAt + 2 * c.shutdown)
    case StopReturned(_) => a.stopEndAt <= a.stopAt + 2 * c.shutdown
  }

  /** Nothing recorded lies in the future. */
  predicate PastTime(s: State) {
    && (s.down.cancelled ==> s.audit.cancelAt <= s.now)
    && (s.main.Returned? ==> s.audit.returnedAt <= s.now)
    && (s.main.Gate? || s.main.GatePassed? ==> s.now == s.audit.startedAt)
    && (!s.main.Entry? && !s.main.Gate? && !s.main.GatePassed? && !s.main.Returned? ==> s.audit.lookAt <= s.now)
  }

  predicate TimeInv(c: Config, s: State) {
    && PastTime(s)
    && CallTime(c, s.now, s.main, s.audit.callAt)
    && (s.down.cancelled ==> CancelTime(c, s.now, s.main, s.audit))
    && LookTime(c, s.now, s.main, s.audit)
    && StopTime(c, s.now, s.down.stopper, s.audit)
  }

  // ---- it holds in every reachable state ---------------------------------------------------

  lemma PhaseEnterKeepsTime(c: Config, s: State, k: Case)
    requires s.main.PhaseEnter? && TimeInv(c, s) && PhaseStep(c, s, k).Some?
    ensures TimeInv(c, PhaseStep(c, s, k).value)
  {
  }

  lemma PhaseWaitKeepsTime(c: Config, s: State, k: Case)
    requires s.main.PhaseWait? && TimeInv(c, s) && PhaseStep(c, s, k).Some?
    ensures TimeInv(c, PhaseStep(c, s, k).value)
  {
  }

  lemma PhasePollKeepsTime(c: Config, s: State, k: Case)
    requires s.main.PhasePoll? && TimeInv(c, s) && PhaseStep(c, s, k).Some?
    ensures TimeInv(c, PhaseStep(c, s, k).value)
  {
  }

  lemma PhaseCloseKeepsTime(c: Config, s: State, k: Case)
    requires s.main.PhaseClose? && TimeInv(c, s) && PhaseStep(c, s, k).Some?
    ensures TimeInv(c, PhaseStep(c, s, k).value)
  {
  }

  lemma PhaseDrainKeepsTime(c: Config, s: State, k: Case)
    requires s.main.PhaseDrain? && TimeInv(c, s) && PhaseStep(c, s, k).Some?
    ensures TimeInv(c, PhaseStep(c, s, k).value)
  {
  }

  lemma PhaseOkKeepsTime(c: Config, s: State, site: Site)
    requires s.main == PhaseRet(site, true) && TimeInv(c, s)
    ensures TimeInv(c, AfterPhase(s, site))
  {
  }

  lemma ReturnKeepsTime(c: Config, s: State, failed: bool)
    requires TimeInv(c, s) && (s.down.cancelled ==> s.now <= s.audit.cancelAt + 3 * c.shutdown)
    ensures TimeInv(c, Return(s, failed))
  {
  }

  lemma PhaseRetKeepsTime(c: Config, s: State, k: Case)
    requires s.main.PhaseRet? && TimeInv(c, s)
    ensures TimeInv(c, PhaseStep(c, s, k).value)
  {
    if s.main.ok {
      PhaseOkKeepsTime(c, s, s.main.site);
    } else {
      ReturnKeepsTime(c, s, !s.down.cancelled);
    }
  }

  lemma PhaseKeepsTime(c: Config, s: State, k: Case)
    requires TimeInv(c, s) && PhaseStep(c, s, k).Some?
    ensures TimeInv(c, PhaseStep(c, s, k).value)
  {
    match s.main
    case PhaseEnter(_) => PhaseEnterKeepsTime(c, s, k);
    case PhaseWait(_, _, _) => PhaseWaitKeepsTime(c, s, k);
    case PhasePoll(_, _) => PhasePollKeepsTime(c, s, k);
    case PhaseClose(_, _, _) => PhaseCloseKeepsTime(c, s, k);
    case PhaseDrain(_, _, _) => PhaseDrainKeepsTime(c, s, k);
    case PhaseRet(_, _) => PhaseRetKeepsTime(c, s, k);
    case _ =>
  }

  lemma LoopTopKeepsTime(c: Config, s: State, k: Case)
    requires s.main.LoopTop? && TimeInv(c, s) && MonStep(c, s, k).Some?
    ensures TimeInv(c, MonStep(c, s, k).value)
  {
  }

  lemma MonEnterKeepsTime(c: Config, s: State, k: Case)
    requires s.main.MonEnter? && TimeInv(c, s) && MonStep(c, s, k).Some?
    ensures TimeInv(c, MonStep(c, s, k).value)
  {
  }

  lemma MonitorStartedKeepsTime(c: Config, s: State, r: WorkerResult)
    requires s.main.MonWait? || s.main.MonPoll?
    requires TimeInv(c, s)
    ensures TimeInv(c, MonitorStarted(c, s, r))
  {
    ReturnKeepsTime(c, s, !s.down.cancelled);
  }

  lemma MonWaitKeepsTime(c: Config, s: State, k: Case)
    requires s.main.MonWait? && TimeInv(c, s) && MonStep(c, s, k).Some?
    ensures TimeInv(c, MonStep(c, s, k).value)
  {
    if HasResult(s, s.main.w) {
      MonitorStartedKeepsTime(c, s, s.crew.results[s.main.w]);
    }
  }

  lemma MonPollKeepsTime(c: Config, s: State, k: Case)
    requires s.main.MonPoll? && TimeInv(c, s)
    ensures TimeInv(c, MonStep(c, s, k).value)
  {
    if HasResult(s, s.main.w) {
      MonitorStartedKeepsTime(c, s, s.crew.results[s.main.w]);
    }
  }

  lemma MonCloseKeepsTime(c: Config, s: State, k: Case)
    requires s.main.MonClose? && TimeInv(c, s) && MonStep(c, s, k).Some?
    ensures TimeInv(c, MonStep(c, s, k).value)
  {
  }

  lemma MonKeepsTime(c: Config, s: State, k: Case)
    requires TimeInv(c, s) && MonStep(c, s, k).Some?
    ensures TimeInv(c, MonStep(c, s, k).value)
  {
    match s.main
    case LoopTop => LoopTopKeepsTime(c, s, k);
    case MonEnter => MonEnterKeepsTime(c, s, k);
    case MonWait(_, _) => MonWaitKeepsTime(c, s, k);
    case MonPoll(_) => MonPollKeepsTime(c, s, k);
    case MonClose(_) => MonCloseKeepsTime(c, s, k);
    case _ =>
  }

  lemma WaitKeepsTime(c: Config, s: State, k: Case)
    requires TimeInv(c, s) && WaitStep(s, k).Some?
    ensures TimeInv(c, WaitStep(s, k).value)
  {
  }

  lemma StopEnterKeepsTime(c: Config, s: State, k: Case)
    requires s.main.StopEnter? && TimeInv(c, s) && StopStep(c, s, k).Some?
    ensures TimeInv(c, StopStep(c, s, k).value)
  {
  }

  lemma StopWaitKeepsTime(c: Config, s: State, k: Case)
    requires s.main.StopWait? && TimeInv(c, s) && StopStep(c, s, k).Some?
    ensures TimeInv(c, StopStep(c, s, k).value)
  {
  }

  lemma StopCloseKeepsTime(c: Config, s: State, k: Case)
    requires s.main.StopClose? && TimeInv(c, s) && StopStep(c, s, k).Some?
    ensures TimeInv(c, StopStep(c, s, k).value)
  {
  }

  lemma StopDrainKeepsTime(c: Config, s: State, k: Case)
    requires s.main.StopDrain? && TimeInv(c, s) && StopStep(c, s, k).Some?
    ensures TimeInv(c, StopStep(c, s, k).value)
  {
  }

  lemma AfterStopKeepsTime(c: Config, s: State, reason: Reason, ok: bool)
    requires s.main == StopRet(reason, ok) && TimeInv(c, s) && !AfterStop(s, reason, ok).main.Returned?
    ensures TimeInv(c, AfterStop(s, reason, ok))
  {
  }

  lemma StopRetKeepsTime(c: Config, s: State, k: Case)
    requires s.main.StopRet? && TimeInv(c, s)
    ensures TimeInv(c, StopStep(c, s, k).value)
  {
    ReturnKeepsTime(c, s, false);
    ReturnKeepsTime(c, s, true);
    if !AfterStop(s, s.main.reason, s.main.ok).main.Returned? {
      AfterStopKeepsTime(c, s, s.main.reason, s.main.ok);
    }
  }

  lemma PostKeepsTime(c: Config, s: State, k: Case)
    requires s.main.Post? && TimeInv(c, s) && StopStep(c, s, k).Some?
    ensures TimeInv(c, StopStep(c, s, k).value)
  {
  }

  lemma StopKeepsTime(c: Config, s: State, k: Case)
    requires TimeInv(c, s) && StopStep(c, s, k).Some?
    ensures TimeInv(c, StopStep(c, s, k).value)
  {
    match s.main
    case StopEnter(_, _, _) => StopEnterKeepsTime(c, s, k);
    case StopWait(_, _, _) => StopWaitKeepsTime(c, s, k);
    case StopClose(_, _, _) => StopCloseKeepsTime(c, s, k);
    case StopDrain(_, _, _) => StopDrainKeepsTime(c, s, k);
    case StopRet(_, _) => StopRetKeepsTime(c, s, k);
    case Post(_) => PostKeepsTime(c, s, k);
    case _ =>
  }

  lemma EntryKeepsTime(c: Config, s: State)
    requires TimeInv(c, s) && s.main.Entry? && GateStep(s).Some?
    ensures TimeInv(c, GateStep(s).value)
  {
  }

  lemma GateItselfKeepsTime(c: Config, s: State)
    requires TimeInv(c, s) && s.main.Gate?
    ensures TimeInv(c, GateStep(s).value)
  {
  }

  lemma GatePassedKeepsTime(c: Config, s: State)
    requires TimeInv(c, s) && s.main.GatePassed?
    ensures TimeInv(c, GateStep(s).value)
  {
  }

  lemma GateKeepsTime(c: Config, s: State)
    requires TimeInv(c, s) && GateStep(s).Some?
    ensures TimeInv(c, GateStep(s).value)
  {
    match s.main
    case Entry => EntryKeepsTime(c, s);
    case Gate => GateItselfKeepsTime(c, s);
    case GatePassed => GatePassedKeepsTime(c, s);
    case _ =>
  }

  lemma MainKeepsTime(c: Config, s: State, k: Case)
    requires TimeInv(c, s) && MainStep(c, s, k).Some?
    ensures TimeInv(c, MainStep(c, s, k).value)
  {
    var m := s.main;
    if m.Entry? || m.Gate? || m.GatePassed? {
      GateKeepsTime(c, s);
    } else if m.PhaseEnter? || m.PhaseWait? || m.PhasePoll? || m.PhaseClose? || m.PhaseDrain? || m.PhaseRet? {
      PhaseKeepsTime(c, s, k);
    } else if m.LoopTop? || m.MonEnter? || m.MonWait? || m.MonPoll? || m.MonClose? {
      MonKeepsTime(c, s, k);
    } else if m.Waiting? {
      WaitKeepsTime(c, s, k);
    } else {
      StopKeepsTime(c, s, k);
    }
  }

  lemma StopperLeavesMain(c: Config, s: State, k: Case)
    requires StopperStep(c, s, k).Some?
    ensures var x := StopperStep(c, s, k).value;
            && x.now == s.now && x.main == s.main
            && (x.down.cancelled == s.down.cancelled || (x.down.cancelled && x.audit.cancelAt == s.now))
            && x.audit.(cancelAt := s.audit.cancelAt, stopAt := s.audit.stopAt, stopEndAt := s.audit.stopEndAt)
               == s.audit
            && (s.down.cancelled ==> x.audit.cancelAt == s.audit.cancelAt)
  {
  }

  lemma StopperKeepsStopTime(c: Config, s: State, k: Case)
    requires StopTime(c, s.now, s.down.stopper, s.audit) && StopperStep(c, s, k).Some?
    ensures var x := StopperStep(c, s, k).value; StopTime(c, x.now, x.down.stopper, x.audit)
  {
  }

  lemma StopperKeepsTime(c: Config, s: State, k: Case)
    requires TimeInv(c, s) && StopperStep(c, s, k).Some?
    ensures TimeInv(c, StopperStep(c, s, k).value)
  {
    StopperLeavesMain(c, s, k);
    StopperKeepsStopTime(c, s, k);
  }

  lemma CancelKeepsTime(c: Config, s: State)
    requires TimeInv(c, s)
    ensures TimeInv(c, s.(down := s.down.(cancelled := true), audit := Cancel(s)))
  {
  }

  lemma TickKeepsCall(c: Config, s: State, t: int)
    requires TimeInv(c, s) && MayTick(s, t)
    ensures CallTime(c, t, s.main, s.audit.callAt)
  {
  }

  lemma TickKeepsCancel(c: Config, s: State, t: int)
    requires TimeInv(c, s) && MayTick(s, t) && s.down.cancelled
    ensures CancelTime(c, t, s.main, s.audit)
  {
  }

  lemma TickKeepsLook(c: Config, s: State, t: int)
    requires TimeInv(c, s) && MayTick(s, t)
    ensures LookTime(c, t, s.main, s.audit)
  {
  }

  lemma TickKeepsTime(c: Config, s: State, t: int)
    requires TimeInv(c, s) && MayTick(s, t)
    ensures TimeInv(c, s.(now := t))
  {
    TickKeepsCall(c, s, t);
    TickKeepsLook(c, s, t);
    if s.down.cancelled {
      TickKeepsCancel(c, s, t);
    }
  }

  lemma WorkerLeavesTime(s: State, w: nat, ok: bool)
    requires WorkerStep(s, w, ok).Some?
    ensures var s' := WorkerStep(s, w, ok).value;
            s'.now == s.now && s'.main == s.main && s'.down == s.down && s'.audit == s.audit
  {
  }

  lemma OthersLeaveTime(c: Config, s: State, a: Action)
    requires !a.MainMoves? && !a.StopperMoves? && !a.ParentCancels? && !a.Tick? && Next(c, s, a).Some?
    ensures var s' := Next(c, s, a).value;
            s'.now == s.now && s'.main == s.main && s'.down == s.down && s'.audit == s.audit
  {
    if a.WorkerMoves? {
      WorkerLeavesTime(s, a.w, a.ok);
    }
  }

  lemma StepKeepsTime(c: Config, s: State, a: Action)
    requires TimeInv(c, s) && Next(c, s, a).Some?
    ensures TimeInv(c, Next(c, s, a).value)
  {
    match a
    case MainMoves(k) => MainKeepsTime(c, s, k);
    case StopperMoves(k) => StopperKeepsTime(c, s, k);
    case ParentCancels => CancelKeepsTime(c, s);
    case Tick(t) => TickKeepsTime(c, s, t);
    case _ => OthersLeaveTime(c, s, a);
  }

  lemma {:induction false} TimeAlways(c: Config, s0: State, actions: seq<Action>)
    requires Init(s0) && Exec(c, s0, actions).Some?
    ensures TimeInv(c, Exec(c, s0, actions).value)
    decreases |actions|
  {
    if actions != [] {
      var n := |actions| - 1;
      TimeAlways(c, s0, actions[..n]);
      StepKeepsTime(c, Exec(c, s0, actions[..n]).value, actions[n]);
    }
  }

  lemma TimeHolds(c: Config, s: State)
    requires Reached(c, s)
    ensures TimeInv(c, s)
  {
    var s0, actions :| Init(s0) && Exec(c, s0, actions) == Some(s);
    TimeAlways(c, s0, actions);
  }

  // ---- what it means --------------------------------------------------------------------------

  predicate InPhase(m: Main) {
    m.PhaseWait? || m.PhasePoll? || m.PhaseClose? || m.PhaseDrain? || m.PhaseRet?
  }

  predicate InStartMonitor(m: Main) {
    m.MonWait? || m.MonPoll? || m.MonClose?
  }

  predicate InStopIdle(m: Main) {
    m.StopWait? || m.StopClose? || m.StopDrain? || m.StopRet?
  }

  /** closeTransport takes at most S from any of its four callers, runIMAPPhase O + 2S,
      startMonitor O + S, stopIDLE 3S. */
  lemma CallsAreBounded(c: Config, s: State)
    requires Reached(c, s)
    ensures InPhase(s.main) ==> s.now <= s.audit.callAt + c.op + 2 * c.shutdown
    ensures InStartMonitor(s.main) ==> s.now <= s.audit.callAt + c.op + c.shutdown
    ensures InStopIdle(s.main) ==> s.now <= s.audit.callAt + 3 * c.shutdown
    ensures s.main.PhaseClose? || s.main.MonClose? || s.main.StopClose? ==>
              s.now <= s.main.deadline <= s.now + c.shutdown
    ensures s.down.stopper.StopClosing? ==> s.now <= s.down.stopper.deadline <= s.now + c.shutdown
  {
    TimeHolds(c, s);
  }

  /** Nor is the wait for Close cut short: as long as it has not answered, runIMAPPhase and startMonitor
      go on only S after their call or later. */
  lemma WaitsForClose(c: Config, s: State, k: Case)
    requires Reached(c, s) && (s.main.PhaseClose? || s.main.MonClose?) && s.closing.doneCloses == 0
    requires MainStep(c, s, k).Some?
    ensures s.now >= s.audit.callAt + c.shutdown
  {
    TimeHolds(c, s);
  }

  /** Stop runs for at most 2S: while it has not returned the clock is within the bound, and so
      is its end. */
  lemma StopIsBounded(c: Config, s: State)
    requires Reached(c, s) && !s.down.stopper.StopNotCalled?
    ensures (if s.down.stopper.StopReturned? then s.audit.stopEndAt else s.now) <= s.audit.stopAt + 2 * c.shutdown
  {
    TimeHolds(c, s);
  }

  lemma CancelledReturnsNil(c: Config, s: State, k: Case)
    requires s.down.cancelled && !s.main.Returned? && MainStep(c, s, k).Some?
    ensures MainStep(c, s, k).value.main != Returned(true)
  {
  }

  /** After a cancellation at any point Monitor returns within 3S: past that no state has a
      running Monitor; and it returns without an error. A Monitor called after the cancellation
      returns at once. */
  lemma MonitorReturnsAfterCancel(c: Config, s: State, k: Case)
    requires Reached(c, s) && s.down.cancelled && !s.main.Entry?
    ensures var end := if s.main.Returned? then s.audit.returnedAt else s.now;
            end <= s.audit.cancelAt + 3 * c.shutdown || end <= s.audit.startedAt
    ensures !s.main.Returned? && MainStep(c, s, k).Some? ==> MainStep(c, s, k).value.main != Returned(true)
  {
    TimeHolds(c, s);
    if !s.main.Returned? && MainStep(c, s, k).Some? {
      CancelledReturnsNil(c, s, k);
    }
  }

  /** While Monitor runs, its last SELECT of the scan box was asked for, or it was called, at most
      4O + I + 5S ago; so the idle lease ends every wait, also one that missed a mail. */
  lemma LooksAgainInTime(c: Config, s: State)
    requires Reached(c, s)
    requires !s.main.Entry? && !s.main.Gate? && !s.main.GatePassed? && !s.main.Returned?
    ensures s.now <= s.audit.lookAt + 4 * c.op + c.idle + 5 * c.shutdown
  {
    TimeHolds(c, s);
  }

  // ---- time does not stop, and a cancelled run winds down ---------------------------------------

  /** The case with which the main goroutine goes on when it is ready. */
  function ReadyCase(s: State): Case {
    match s.main
    case PhaseWait(_, w, _) => if HasResult(s, w) then TakeResult else TakeDone
    case PhaseClose(_, _, _) => if s.closing.doneCloses > 0 then TakeClosed else TakeTimer
    case PhaseDrain(_, w, _) => if HasResult(s, w) then TakeResult else TakeTimer
    case MonWait(w, _) => if HasResult(s, w) then TakeResult else TakeDone
    case MonClose(_) => if s.closing.doneCloses > 0 then TakeClosed else TakeTimer
    case Waiting(_, _, learnAt, idleAt) =>
      if s.down.cancelled then TakeCtx else if s.session.connClosed then TakeConn
      else if s.now >= idleAt then TakeIdle else if s.now >= learnAt then TakeLearn else TakeEvent
    case StopWait(w, _, _) => if HasResult(s, w) then TakeResult else TakeTimer
    case StopClose(_, _, _) => if s.closing.doneCloses > 0 then TakeClosed else TakeTimer
    case StopDrain(w, _, _) => if HasResult(s, w) then TakeResult else TakeTimer
    case _ => Go
  }

  function StopperCase(s: State): Case {
    match s.down.stopper
    case StopClosing(_) => if s.closing.doneCloses > 0 then TakeClosed else TakeTimer
    case StopJoining(_) => if s.down.wgRun == 0 then TakeResult else TakeTimer
    case _ => Go
  }

  lemma ReadyMeansEnabled(c: Config, s: State)
    ensures MainReady(s) ==> MainStep(c, s, ReadyCase(s)).Some?
    ensures StopperReady(s) ==> StopperStep(c, s, StopperCase(s)).Some?
  {
  }

  /** No timelock: in every reachable state time can pass, or the main goroutine or Stop can
      take a step now. No bound above holds merely because the clock is stuck. */
  lemma NoTimelock(c: Config, s: State)
    requires Reached(c, s)
    ensures MayTick(s, s.now + 1) || MainStep(c, s, ReadyCase(s)).Some? || StopperStep(c, s, StopperCase(s)).Some?
  {
    TimeHolds(c, s);
    ReadyMeansEnabled(c, s);
  }

  /** The most steps a cancelled Monitor can still take. */
  function WindDown(m: Main): nat {
    match m
    case Entry => 11
    case Gate => 10
    case GatePassed => 9
    case PhaseEnter(_) => 3
    case PhaseWait(_, _, _) => 8
    case PhasePoll(_, _) => 7
    case PhaseClose(_, _, _) => 6
    case PhaseDrain(_, _, _) => 5
    case PhaseRet(_, ok) => if ok then 4 else 2
    case LoopTop => 1
    case MonEnter => 1
    case MonWait(_, _) => 11
    case MonPoll(_) => 10
    case MonClose(_) => 1
    case Waiting(_, _, _, _) => 9
    case StopEnter(_, _, _) => 8
    case StopWait(_, _, _) => 7
    case StopClose(_, _, _) => 6
    case StopDrain(_, _, _) => 5
    case StopRet(_, _) => 4
    case Post(_) => 1
    case Returned(_) => 0
  }

  predicate WindsDown(s: State, s': State) {
    s'.down.cancelled && WindDown(s'.main) < WindDown(s.main)
  }

  lemma CancelledPhaseWindsDown(c: Config, s: State, k: Case)
    requires s.down.cancelled && PhaseStep(c, s, k).Some?
    ensures WindsDown(s, PhaseStep(c, s, k).value)
  {
  }

  lemma CancelledMonWindsDown(c: Config, s: State, k: Case)
    requires s.down.cancelled && MonStep(c, s, k).Some?
    ensures WindsDown(s, MonStep(c, s, k).value)
  {
  }

  lemma CancelledStopWindsDown(c: Config, s: State, k: Case)
    requires s.down.cancelled && StopStep(c, s, k).Some?
    ensures WindsDown(s, StopStep(c, s, k).value)
  {
  }

  lemma CancelledStepWindsDown(c: Config, s: State, k: Case)
    requires s.down.cancelled && MainStep(c, s, k).Some?
    ensures WindsDown(s, MainStep(c, s, k).value)
  {
    var m := s.main;
    if m.PhaseEnter? || m.PhaseWait? || m.PhasePoll? || m.PhaseClose? || m.PhaseDrain? || m.PhaseRet? {
      CancelledPhaseWindsDown(c, s, k);
    } else if m.LoopTop? || m.MonEnter? || m.MonWait? || m.MonPoll? || m.MonClose? {
      CancelledMonWindsDown(c, s, k);
    } else if !m.Entry? && !m.Gate? && !m.GatePassed? && !m.Waiting? {
      CancelledStopWindsDown(c, s, k);
    }
  }

  /** Once cancelled, every step of the main goroutine brings it nearer to its return, and no
      other step moves it: with NoTimelock and the bound above it returns within 3S. */
  lemma CancelledRunWindsDown(c: Config, s: State, a: Action)
    requires s.down.cancelled && Next(c, s, a).Some?
    ensures var s' := Next(c, s, a).value;
            s'.down.cancelled && if a.MainMoves? then WindDown(s'.main) < WindDown(s.main) else s'.main == s.main
  {
    match a
    case MainMoves(k) => CancelledStepWindsDown(c, s, k);
    case StopperMoves(_) =>
    case Tick(_) =>
    case ParentCancels =>
    case _ => OthersLeaveTime(c, s, a);
  }
}
