/** Exactly when Stop waits for Monitor: the condition of ProtocolStop.Answered is not only
    sufficient; from every other state in which Stop has just cancelled, a run lets Stop return first. */
module ProtocolStopExact {
  import opened Protocol
  import opened ProtocolSession
  import opened ProtocolShutdown
  import opened ProtocolStop
  import opened ProtocolTiming
  import opened Wrappers

  /** Stop has returned and Monitor has not. */
  predicate Left(s: State) {
    s.down.stopper.StopReturned? && Counted(s.main)
  }

  /** Some continuation lets Stop return before Monitor. */
  ghost predicate MayLeave(c: Config, s: State) {
    exists actions :: Exec(c, s, actions).Some? && Left(Exec(c, s, actions).value)
  }

  // ---- backwards over single steps --------------------------------------------------------

  lemma {:induction false} ExecCons(c: Config, s: State, a: Action, s1: State, rest: seq<Action>)
    requires Next(c, s, a) == Some(s1)
    ensures Exec(c, s, [a] + rest) == Exec(c, s1, rest)
    decreases |rest|
  {
    var all := [a] + rest;
    if rest == [] {
      assert all[..0] == [] && all[0] == a;
      assert Exec(c, s, []) == Some(s);
    } else {
      var n := |rest| - 1;
      ExecCons(c, s, a, s1, rest[..n]);
      assert all[..|all| - 1] == [a] + rest[..n] && all[|all| - 1] == rest[n];
    }
  }

  lemma Before(c: Config, s: State, a: Action, s1: State)
    requires Next(c, s, a) == Some(s1) && MayLeave(c, s1)
    ensures MayLeave(c, s)
  {
    var rest :| Exec(c, s1, rest).Some? && Left(Exec(c, s1, rest).value);
    ExecCons(c, s, a, s1, rest);
  }

  lemma AlreadyLeft(c: Config, s: State)
    requires Left(s)
    ensures MayLeave(c, s)
  {
    assert Exec(c, s, []) == Some(s);
  }

  // ---- Stop waits for Monitor, and Close has answered ---------------------------------------

  /** Monitor waits for something that is not answered, and not for too short a time. */
  predicate Hangs(c: Config, s: State) {
    var end := s.audit.stopAt + c.shutdown;
    match s.main
    case PhaseWait(_, w, _) => !HasResult(s, w)
    case PhasePoll(_, w) => !HasResult(s, w)
    case PhaseClose(_, w, _) => !HasResult(s, w)
    case PhaseDrain(_, w, deadline) => !HasResult(s, w) && end <= deadline
    case StopWait(w, _, deadline) => !HasResult(s, w) && s.now <= deadline <= end
    case StopClose(w, _, _) => !HasResult(s, w)
    case StopDrain(w, _, deadline) => !HasResult(s, w) && end <= deadline
    case _ => false
  }

  predicate Cancelled(c: Config, s: State) {
    s.down.cancelled && s.down.wgRun == 1 && c.shutdown >= 1 && s.audit.stopAt <= s.now
  }

  predicate Joining(c: Config, s: State) {
    && Cancelled(c, s) && s.now < s.audit.stopAt + c.shutdown
    && s.down.stopper == StopJoining(s.audit.stopAt + c.shutdown) && s.closing.doneCloses > 0
  }

  /** In its last wait, not shorter than that of Stop, Monitor is left behind. */
  lemma LeavesLastWait(c: Config, s: State)
    requires Joining(c, s) && Hangs(c, s)
    requires || s.main.PhaseDrain? || s.main.StopDrain?
             || (s.main.StopWait? && s.main.deadline == s.audit.stopAt + c.shutdown)
    ensures MayLeave(c, s)
  {
    var end := s.audit.stopAt + c.shutdown;
    var a := s.(now := end);
    var b := a.(down := a.down.(stopper := StopReturned(true)), audit := a.audit.(stopEndAt := end));
    AlreadyLeft(c, b);
    Before(c, a, StopperMoves(TakeTimer), b);
    Before(c, s, Tick(end), a);
  }

  lemma LeavesPhaseClose(c: Config, s: State)
    requires Joining(c, s) && Hangs(c, s) && s.main.PhaseClose?
    ensures MayLeave(c, s)
  {
    var a := s.(main := PhaseDrain(s.main.site, s.main.w, s.now + c.shutdown));
    LeavesLastWait(c, a);
    Before(c, s, MainMoves(TakeClosed), a);
  }

  lemma LeavesPhase(c: Config, s: State)
    requires Joining(c, s) && Hangs(c, s) && (s.main.PhaseWait? || s.main.PhasePoll?)
    ensures MayLeave(c, s)
  {
    var a := s.(main := PhasePoll(s.main.site, s.main.w));
    var b := a.(closing := StartClose(a.closing), main := PhaseClose(a.main.site, a.main.w, a.now + c.shutdown));
    LeavesPhaseClose(c, b);
    Before(c, a, MainMoves(Go), b);
    if s.main.PhaseWait? {
      Before(c, s, MainMoves(TakeDone), a);
    }
  }

  lemma LeavesStopClose(c: Config, s: State)
    requires Joining(c, s) && Hangs(c, s) && s.main.StopClose?
    ensures MayLeave(c, s)
  {
    var a := s.(main := StopDrain(s.main.w, s.main.reason, s.now + c.shutdown));
    LeavesLastWait(c, a);
    Before(c, s, MainMoves(TakeClosed), a);
  }

  /** The first wait of stopIDLE ends before that of Stop. */
  lemma LeavesStopWait(c: Config, s: State)
    requires Joining(c, s) && Hangs(c, s) && s.main.StopWait? && s.main.deadline < s.audit.stopAt + c.shutdown
    ensures MayLeave(c, s)
  {
    var d := s.main.deadline;
    var a := s.(now := d);
    var b := a.(closing := StartClose(a.closing), main := StopClose(a.main.w, a.main.reason, d + c.shutdown));
    LeavesStopClose(c, b);
    Before(c, a, MainMoves(TakeTimer), b);
    if s.now < d {
      Before(c, s, Tick(d), a);
    }
  }

  lemma LeavesJoining(c: Config, s: State)
    requires Joining(c, s) && Hangs(c, s)
    ensures MayLeave(c, s)
  {
    if s.main.PhaseWait? || s.main.PhasePoll? {
      LeavesPhase(c, s);
    } else if s.main.PhaseClose? {
      LeavesPhaseClose(c, s);
    } else if s.main.StopClose? {
      LeavesStopClose(c, s);
    } else if s.main.StopWait? && s.main.deadline < s.audit.stopAt + c.shutdown {
      LeavesStopWait(c, s);
    } else {
      LeavesLastWait(c, s);
    }
  }

  // ---- Close answers at once -------------------------------------------------------------------

  predicate Closes(c: Config, s: State) {
    && Cancelled(c, s) && s.now == s.audit.stopAt
    && s.down.stopper == StopClosing(s.audit.stopAt + c.shutdown)
  }

  lemma LeavesClosed(c: Config, s: State)
    requires Closes(c, s) && Hangs(c, s) && s.closing.doneCloses > 0
    ensures MayLeave(c, s)
  {
    var a := s.(down := s.down.(stopper := StopJoining(s.now + c.shutdown)));
    LeavesJoining(c, a);
    Before(c, s, StopperMoves(TakeClosed), a);
  }

  lemma LeavesWritten(c: Config, s: State)
    requires Closes(c, s) && Hangs(c, s) && s.closing.wrote > 0
    ensures MayLeave(c, s)
  {
    var a := CloserStep(s, CloseDone).value;
    LeavesClosed(c, a);
    Before(c, s, CloserMoves(CloseDone), a);
  }

  lemma LeavesCalling(c: Config, s: State)
    requires Closes(c, s) && Hangs(c, s) && s.closing.calling > 0
    ensures MayLeave(c, s)
  {
    var a := CloserStep(s, CloseReturns).value;
    LeavesWritten(c, a);
    Before(c, s, CloserMoves(CloseReturns), a);
  }

  lemma LeavesSpawned(c: Config, s: State)
    requires Closes(c, s) && Hangs(c, s) && s.closing.spawned > 0
    ensures MayLeave(c, s)
  {
    var a := CloserStep(s, CallClose).value;
    LeavesCalling(c, a);
    Before(c, s, CloserMoves(CallClose), a);
  }

  /** A close that was started is under way or done. */
  predicate CloseUnderWay(c: Closing) {
    c.once ==> c.spawned > 0 || c.calling > 0 || c.wrote > 0 || c.doneCloses > 0
  }

  lemma LeavesClosing(c: Config, s: State)
    requires Closes(c, s) && Hangs(c, s) && s.closing.once && CloseUnderWay(s.closing)
    ensures MayLeave(c, s)
  {
    if s.closing.doneCloses > 0 {
      LeavesClosed(c, s);
    } else if s.closing.wrote > 0 {
      LeavesWritten(c, s);
    } else if s.closing.calling > 0 {
      LeavesCalling(c, s);
    } else {
      LeavesSpawned(c, s);
    }
  }

  predicate JustCancelled(c: Config, s: State) {
    Cancelled(c, s) && s.now == s.audit.stopAt && s.down.stopper == StopUnlocked && CloseUnderWay(s.closing)
  }

  lemma LeavesHanging(c: Config, s: State)
    requires JustCancelled(c, s) && Hangs(c, s)
    ensures MayLeave(c, s)
  {
    var a := s.(closing := StartClose(s.closing), down := s.down.(stopper := StopClosing(s.now + c.shutdown)));
    LeavesClosing(c, a);
    Before(c, s, StopperMoves(Go), a);
  }

  // ---- a monitor that waits, or can still start -------------------------------------------------

  lemma LeavesStopEnter(c: Config, s: State)
    requires JustCancelled(c, s) && s.main.StopEnter? && s.crew.nextId !in s.crew.results
    ensures MayLeave(c, s)
  {
    var a := StopStep(c, s, Go).value;
    LeavesHanging(c, a);
    Before(c, s, MainMoves(Go), a);
  }

  lemma LeavesWaiting(c: Config, s: State)
    requires JustCancelled(c, s) && s.main.Waiting? && s.crew.nextId !in s.crew.results
    ensures MayLeave(c, s)
  {
    var a := s.(main := StopEnter(s.main.ch, s.main.idling, CtxDone));
    LeavesStopEnter(c, a);
    Before(c, s, MainMoves(TakeCtx), a);
  }

  predicate Starting(s: State, w: nat) {
    s.main == MonPoll(w) || (s.main.MonWait? && s.main.w == w)
  }

  lemma LeavesStarted(c: Config, s: State, w: nat)
    requires JustCancelled(c, s) && Starting(s, w) && s.crew.nextId !in s.crew.results
    requires w in s.crew.results && s.crew.results[w].MonOk?
    ensures MayLeave(c, s)
  {
    var a := MonitorStarted(c, s, s.crew.results[w]);
    LeavesWaiting(c, a);
    Before(c, s, MainMoves(TakeResult), a);
  }

  /** The worker of startMonitor is next to the end, and its id is not the next one. */
  predicate Works(s: State, w: nat, k: Worker) {
    w in s.crew.workers && s.crew.workers[w] == k && w < s.crew.nextId && s.crew.nextId !in s.crew.results
  }

  lemma LeavesIdle(c: Config, s: State, w: nat, ch: nat)
    requires JustCancelled(c, s) && Starting(s, w) && Works(s, w, MonIdle(ch))
    ensures MayLeave(c, s)
  {
    var a := MonWorkerStep(s, w, MonIdle(ch), true).value;
    LeavesStarted(c, a, w);
    Before(c, s, WorkerMoves(w, true), a);
  }

  lemma LeavesRegisterFree(c: Config, s: State, w: nat, ch: nat)
    requires JustCancelled(c, s) && Starting(s, w) && Works(s, w, MonRegister(ch)) && s.session.handler.HandlerIdle?
    ensures MayLeave(c, s)
  {
    var a := MonWorkerStep(s, w, MonRegister(ch), true).value;
    LeavesIdle(c, a, w, ch);
    Before(c, s, WorkerMoves(w, true), a);
  }

  lemma LeavesRegister(c: Config, s: State, w: nat, ch: nat)
    requires JustCancelled(c, s) && Starting(s, w) && Works(s, w, MonRegister(ch))
    ensures MayLeave(c, s)
  {
    if s.session.handler.HandlerIdle? {
      LeavesRegisterFree(c, s, w, ch);
    } else {
      var a := HandlerStep(s).value;
      LeavesRegisterFree(c, a, w, ch);
      Before(c, s, HandlerMoves, a);
    }
  }

  lemma LeavesSelect(c: Config, s: State, w: nat)
    requires JustCancelled(c, s) && Starting(s, w) && Works(s, w, MonSelect)
    ensures MayLeave(c, s)
  {
    var a := MonWorkerStep(s, w, MonSelect, true).value;
    if s.server.count != 0 {
      LeavesStarted(c, a, w);
    } else {
      LeavesRegister(c, a, w, s.session.nextCh);
    }
    Before(c, s, WorkerMoves(w, true), a);
  }

  // ---- a started close is under way ----------------------------------------------------------------

  lemma CloserKeepsUnderWay(s: State, m: CloserMove)
    requires CloseUnderWay(s.closing) && CloserStep(s, m).Some?
    ensures CloseUnderWay(CloserStep(s, m).value.closing)
  {
  }

  lemma {:induction false} UnderWayAlways(c: Config, s0: State, actions: seq<Action>)
    requires Init(s0) && Exec(c, s0, actions).Some?
    ensures CloseUnderWay(Exec(c, s0, actions).value.closing)
    decreases |actions|
  {
    if actions != [] {
      var n := |actions| - 1;
      var s := Exec(c, s0, actions[..n]).value;
      UnderWayAlways(c, s0, actions[..n]);
      if actions[n].CloserMoves? {
        CloserKeepsUnderWay(s, actions[n].m);
      } else {
        OthersOnlyStartClose(c, s, actions[n]);
      }
    }
  }

  // ---- exactly when ------------------------------------------------------------------------------------

  lemma ReachedFacts(c: Config, s: State)
    requires Reached(c, s) && c.shutdown >= 1 && s.down.stopper.StopUnlocked? && !Answered(c, s)
    ensures JustCancelled(c, s) && SessionInv(s) && TimeInv(c, s) && StopClock(c, s) && Counted(s.main)
  {
    var s0, actions :| Init(s0) && Exec(c, s0, actions) == Some(s);
    SessionAlways(c, s0, actions);
    UnderWayAlways(c, s0, actions);
    StopHolds(c, s);
  }

  lemma UnansweredHangs(c: Config, s: State)
    requires TimeInv(c, s) && StopClock(c, s) && s.down.stopper.StopUnlocked? && !Answered(c, s) && Counted(s.main)
    requires !s.main.MonWait? && !s.main.MonPoll? && !s.main.Waiting? && !s.main.StopEnter?
    ensures Hangs(c, s)
  {
  }

  lemma LeavesStarting(c: Config, s: State, w: nat)
    requires JustCancelled(c, s) && SessionInv(s) && Starting(s, w) && !StartFails(s, w)
    ensures MayLeave(c, s)
  {
    assert s.crew.nextId !in s.crew.results;
    if w in s.crew.workers {
      match s.crew.workers[w] {
        case MonSelect => LeavesSelect(c, s, w);
        case MonRegister(ch) => LeavesRegister(c, s, w, ch);
        case MonIdle(ch) => LeavesIdle(c, s, w, ch);
        case _ =>
      }
    } else {
      LeavesStarted(c, s, w);
    }
  }

  lemma UnansweredMayLeave(c: Config, s: State)
    requires Reached(c, s) && c.shutdown >= 1 && s.down.stopper.StopUnlocked? && !Answered(c, s)
    ensures MayLeave(c, s)
  {
    ReachedFacts(c, s);
    assert s.crew.nextId !in s.crew.results;
    if s.main.MonWait? || s.main.MonPoll? {
      LeavesStarting(c, s, s.main.w);
    } else if s.main.Waiting? {
      LeavesWaiting(c, s);
    } else if s.main.StopEnter? {
      LeavesStopEnter(c, s);
    } else {
      UnansweredHangs(c, s);
      LeavesHanging(c, s);
    }
  }

  /** In every state in which Stop has just cancelled: some run from it lets Stop return before Monitor
      exactly if what Monitor waits for is neither answered nor given up within S. */
  lemma StopWaitsIff(c: Config, s: State)
    requires Reached(c, s) && c.shutdown >= 1 && s.down.stopper.StopUnlocked?
    ensures MayLeave(c, s) <==> !Answered(c, s)
  {
    if Answered(c, s) {
      forall actions | Exec(c, s, actions).Some?
        ensures !Left(Exec(c, s, actions).value)
      {
        StopHolds(c, s);
        StopWaitsForMonitor(c, s, actions);
      }
    } else {
      UnansweredMayLeave(c, s);
    }
  }
}
