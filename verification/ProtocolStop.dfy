/** When Stop waits for Monitor: its own waits end after twice the shutdown timeout, and Monitor may
    need three times that. */
module ProtocolStop {
  import opened Protocol
  import opened ProtocolShutdown
  import opened ProtocolTiming
  import opened Wrappers

  // ---- the clock of Stop ------------------------------------------------------------------

  /** Stop has cancelled and has not returned. */
  predicate Stopping(p: Stopper) {
    p.StopUnlocked? || p.StopClosing? || p.StopJoining?
  }

  predicate StopClock(c: Config, s: State) {
    && (!s.down.stopper.StopNotCalled? ==> s.audit.stopAt <= s.now)
    && (Stopping(s.down.stopper) || s.down.stopper.StopReturned? ==>
          s.down.cancelled && s.audit.cancelAt <= s.audit.stopAt)
    && match s.down.stopper
       case StopClosing(deadline) => deadline == s.audit.stopAt + c.shutdown
       case StopJoining(deadline) =>
         && deadline >= s.audit.stopAt + c.shutdown
         && (s.closing.doneCloses > 0 || deadline >= s.audit.stopAt + 2 * c.shutdown)
       case _ => true
  }

  lemma StopperKeepsClock(c: Config, s: State, k: Case)
    requires TimeInv(c, s) && StopClock(c, s) && StopperStep(c, s, k).Some?
    ensures StopClock(c, StopperStep(c, s, k).value)
  {
  }

  /** What the main goroutine leaves as it is. */
  predicate SameStop(s: State, x: State) {
    && x.now == s.now && x.closing.doneCloses == s.closing.doneCloses
    && x.down.stopper == s.down.stopper && x.down.cancelled == s.down.cancelled
    && x.audit.stopAt == s.audit.stopAt && x.audit.cancelAt == s.audit.cancelAt
  }

  lemma PhaseLeavesStop(c: Config, s: State, k: Case)
    requires PhaseStep(c, s, k).Some?
    ensures SameStop(s, PhaseStep(c, s, k).value)
  {
  }

  lemma MonLeavesStop(c: Config, s: State, k: Case)
    requires MonStep(c, s, k).Some?
    ensures SameStop(s, MonStep(c, s, k).value)
  {
  }

  lemma StopLeavesStop(c: Config, s: State, k: Case)
    requires StopStep(c, s, k).Some?
    ensures SameStop(s, StopStep(c, s, k).value)
  {
  }

  lemma MainLeavesStop(c: Config, s: State, k: Case)
    requires MainStep(c, s, k).Some?
    ensures SameStop(s, MainStep(c, s, k).value)
  {
    var m := s.main;
    if m.PhaseEnter? || m.PhaseWait? || m.PhasePoll? || m.PhaseClose? || m.PhaseDrain? || m.PhaseRet? {
      PhaseLeavesStop(c, s, k);
    } else if m.LoopTop? || m.MonEnter? || m.MonWait? || m.MonPoll? || m.MonClose? {
      MonLeavesStop(c, s, k);
    } else if !m.Entry? && !m.Gate? && !m.GatePassed? && !m.Waiting? {
      StopLeavesStop(c, s, k);
    }
  }

  /** The steps of workers, of the closing goroutine, of the handler and of the server. */
  predicate Aside(a: Action) {
    !a.MainMoves? && !a.StopperMoves? && !a.ParentCancels? && !a.Tick?
  }

  lemma AsideLeavesStop(c: Config, s: State, a: Action)
    requires Aside(a) && Next(c, s, a).Some?
    ensures var x := Next(c, s, a).value;
            && x.now == s.now && x.main == s.main && x.down == s.down && x.audit == s.audit
            && x.closing.doneCloses >= s.closing.doneCloses
            && (forall w :: w in s.crew.results ==> w in x.crew.results)
  {
  }

  lemma StepKeepsClock(c: Config, s: State, a: Action)
    requires TimeInv(c, s) && StopClock(c, s) && Next(c, s, a).Some?
    ensures StopClock(c, Next(c, s, a).value)
  {
    match a
    case MainMoves(k) => MainLeavesStop(c, s, k);
    case StopperMoves(k) => StopperKeepsClock(c, s, k);
    case ParentCancels =>
    case Tick(_) =>
    case _ => AsideLeavesStop(c, s, a);
  }

  lemma {:induction false} ClockAlways(c: Config, s0: State, actions: seq<Action>)
    requires Init(s0) && Exec(c, s0, actions).Some?
    ensures StopClock(c, Exec(c, s0, actions).value)
    decreases |actions|
  {
    if actions != [] {
      var n := |actions| - 1;
      TimeAlways(c, s0, actions[..n]);
      ClockAlways(c, s0, actions[..n]);
      StepKeepsClock(c, Exec(c, s0, actions[..n]).value, actions[n]);
    }
  }

  // ---- when Monitor is done before Stop gives up --------------------------------------------

  /** The start of a monitor fails, or has failed. */
  predicate StartFails(s: State, w: nat) {
    && (w in s.crew.results ==> !s.crew.results[w].MonOk?)
    && (w in s.crew.workers ==> s.crew.workers[w].MonUnregister? || s.crew.workers[w].MonCloseCh?)
  }

  /** Monitor waits for no phase function, no start of a monitor that can still succeed and no stop
      function; or what it waits for has been answered, or it gives up within the shutdown timeout
      of the call of Stop. */
  predicate Answered(c: Config, s: State) {
    match s.main
    case GatePassed => false
    case PhaseWait(_, w, _) => HasResult(s, w)
    case PhasePoll(_, w) => HasResult(s, w)
    case PhaseClose(_, w, _) => HasResult(s, w)
    case PhaseDrain(_, w, deadline) => HasResult(s, w) || deadline < s.audit.stopAt + c.shutdown
    case MonWait(w, _) => StartFails(s, w)
    case MonPoll(w) => StartFails(s, w)
    case Waiting(_, _, _, _) => false
    case StopEnter(_, _, _) => false
    case StopWait(w, _, _) => HasResult(s, w)
    case StopClose(w, _, _) => HasResult(s, w)
    case StopDrain(w, _, deadline) => HasResult(s, w) || deadline < s.audit.stopAt + c.shutdown
    case _ => true
  }

  /** Monitor will be out of closeTransport in time. */
  predicate ClosesInTime(c: Config, s: State) {
    var end := s.audit.stopAt + c.shutdown;
    match s.main
    case PhaseClose(_, _, deadline) => deadline <= end
    case MonClose(deadline) => deadline <= end
    case StopWait(_, _, deadline) =>
      deadline <= end && (s.closing.doneCloses > 0 || s.now < deadline || deadline < end)
    case StopClose(_, _, deadline) => s.closing.doneCloses > 0 || deadline < end + c.shutdown
    case _ => true
  }

  predicate JoinsInTime(s: State) {
    match s.down.stopper
    case StopNotCalled => false
    case StopLocked => false
    case StopJoining(deadline) => Counted(s.main) ==> s.now < deadline
    case StopReturned(_) => !Counted(s.main)
    case _ => true
  }

  predicate OnCourse(c: Config, s: State) {
    s.down.cancelled && Answered(c, s) && ClosesInTime(c, s) && JoinsInTime(s)
  }

  lemma PhaseStaysAnswered(c: Config, s: State, k: Case)
    requires s.down.cancelled && Answered(c, s) && PhaseStep(c, s, k).Some?
    ensures Answered(c, PhaseStep(c, s, k).value) && (Counted(PhaseStep(c, s, k).value.main) ==> Counted(s.main))
  {
  }

  lemma MonStaysAnswered(c: Config, s: State, k: Case)
    requires s.down.cancelled && Answered(c, s) && MonStep(c, s, k).Some?
    ensures Answered(c, MonStep(c, s, k).value) && (Counted(MonStep(c, s, k).value.main) ==> Counted(s.main))
  {
  }

  lemma StopStaysAnswered(c: Config, s: State, k: Case)
    requires s.down.cancelled && Answered(c, s) && StopStep(c, s, k).Some?
    ensures Answered(c, StopStep(c, s, k).value) && (Counted(StopStep(c, s, k).value.main) ==> Counted(s.main))
  {
  }

  lemma MainStaysAnswered(c: Config, s: State, k: Case)
    requires s.down.cancelled && Answered(c, s) && MainStep(c, s, k).Some?
    ensures Answered(c, MainStep(c, s, k).value) && (Counted(MainStep(c, s, k).value.main) ==> Counted(s.main))
  {
    var m := s.main;
    if m.PhaseEnter? || m.PhaseWait? || m.PhasePoll? || m.PhaseClose? || m.PhaseDrain? || m.PhaseRet? {
      PhaseStaysAnswered(c, s, k);
    } else if m.LoopTop? || m.MonEnter? || m.MonWait? || m.MonPoll? || m.MonClose? {
      MonStaysAnswered(c, s, k);
    } else if !m.Entry? && !m.Gate? && !m.GatePassed? && !m.Waiting? {
      StopStaysAnswered(c, s, k);
    }
  }

  lemma PhaseStaysInTime(c: Config, s: State, k: Case)
    requires TimeInv(c, s) && StopClock(c, s) && OnCourse(c, s) && PhaseStep(c, s, k).Some?
    ensures ClosesInTime(c, PhaseStep(c, s, k).value)
  {
  }

  lemma MonStaysInTime(c: Config, s: State, k: Case)
    requires TimeInv(c, s) && StopClock(c, s) && OnCourse(c, s) && MonStep(c, s, k).Some?
    ensures ClosesInTime(c, MonStep(c, s, k).value)
  {
  }

  lemma StopStaysInTime(c: Config, s: State, k: Case)
    requires TimeInv(c, s) && StopClock(c, s) && OnCourse(c, s) && StopStep(c, s, k).Some?
    ensures ClosesInTime(c, StopStep(c, s, k).value)
  {
  }

  lemma MainStaysInTime(c: Config, s: State, k: Case)
    requires TimeInv(c, s) && StopClock(c, s) && OnCourse(c, s) && MainStep(c, s, k).Some?
    ensures ClosesInTime(c, MainStep(c, s, k).value)
  {
    var m := s.main;
    if m.PhaseEnter? || m.PhaseWait? || m.PhasePoll? || m.PhaseClose? || m.PhaseDrain? || m.PhaseRet? {
      PhaseStaysInTime(c, s, k);
    } else if m.LoopTop? || m.MonEnter? || m.MonWait? || m.MonPoll? || m.MonClose? {
      MonStaysInTime(c, s, k);
    } else if !m.Entry? && !m.Gate? && !m.GatePassed? && !m.Waiting? {
      StopStaysInTime(c, s, k);
    }
  }

  lemma StopperStaysOnCourse(c: Config, s: State, k: Case)
    requires TimeInv(c, s) && StopClock(c, s) && OnCourse(c, s) && GateInv(s.main, s.down)
    requires c.shutdown >= 1 && StopperStep(c, s, k).Some?
    ensures OnCourse(c, StopperStep(c, s, k).value)
  {
  }

  lemma TickStaysOnCourse(c: Config, s: State, t: int)
    requires TimeInv(c, s) && StopClock(c, s) && OnCourse(c, s) && c.shutdown >= 1 && MayTick(s, t)
    ensures OnCourse(c, s.(now := t))
  {
  }

  lemma AsideStaysOnCourse(c: Config, s: State, a: Action)
    requires OnCourse(c, s) && Aside(a) && Next(c, s, a).Some?
    ensures OnCourse(c, Next(c, s, a).value)
  {
    AsideLeavesStop(c, s, a);
  }

  lemma StepStaysOnCourse(c: Config, s: State, a: Action)
    requires TimeInv(c, s) && StopClock(c, s) && OnCourse(c, s) && GateInv(s.main, s.down)
    requires c.shutdown >= 1 && Next(c, s, a).Some?
    ensures OnCourse(c, Next(c, s, a).value)
  {
    match a
    case MainMoves(k) =>
      MainLeavesStop(c, s, k);
      MainStaysAnswered(c, s, k);
      MainStaysInTime(c, s, k);
    case StopperMoves(k) => StopperStaysOnCourse(c, s, k);
    case Tick(t) => TickStaysOnCourse(c, s, t);
    case ParentCancels =>
    case _ => AsideStaysOnCourse(c, s, a);
  }

  ghost predicate StopInv(c: Config, s: State) {
    TimeInv(c, s) && StopClock(c, s) && ShutdownInv(s)
  }

  lemma StopHolds(c: Config, s: State)
    requires Reached(c, s)
    ensures StopInv(c, s)
  {
    var s0, actions :| Init(s0) && Exec(c, s0, actions) == Some(s);
    TimeAlways(c, s0, actions);
    ClockAlways(c, s0, actions);
    ShutdownAlways(c, s0, actions);
  }

  lemma {:induction false} StaysOnCourse(c: Config, s: State, actions: seq<Action>)
    requires StopInv(c, s) && OnCourse(c, s) && c.shutdown >= 1 && Exec(c, s, actions).Some?
    ensures StopInv(c, Exec(c, s, actions).value) && OnCourse(c, Exec(c, s, actions).value)
    decreases |actions|
  {
    if actions != [] {
      var n := |actions| - 1;
      var m := Exec(c, s, actions[..n]).value;
      StaysOnCourse(c, s, actions[..n]);
      StepKeepsTime(c, m, actions[n]);
      StepKeepsClock(c, m, actions[n]);
      StepKeepsShutdown(c, m, actions[n]);
      StepStaysOnCourse(c, m, actions[n]);
    }
  }

  /** There is time left: the shutdown timeout since the call of Stop is not over, or Close has
      answered and the wait for Monitor is not over. */
  predicate TimeLeft(c: Config, s: State) {
    || s.now < s.audit.stopAt + c.shutdown
    || (s.closing.doneCloses > 0 && (s.down.stopper.StopJoining? ==> s.now < s.down.stopper.deadline))
  }

  /** Stop returns only after Monitor if, at its cancellation or later while there is time left, Monitor
      waits for no phase, no start of a monitor and no stop function, or what it waits for has
      been answered. */
  lemma StopWaitsForMonitor(c: Config, s: State, actions: seq<Action>)
    requires Reached(c, s) && c.shutdown >= 1 && Stopping(s.down.stopper)
    requires Answered(c, s) && TimeLeft(c, s)
    requires Exec(c, s, actions).Some?
    ensures Exec(c, s, actions).value.down.stopper.StopReturned? ==> !Counted(Exec(c, s, actions).value.main)
  {
    StopHolds(c, s);
    StaysOnCourse(c, s, actions);
  }

  // ---- runs step by step ----------------------------------------------------------------------

  ghost function Follow(c: Config, s: State, actions: seq<Action>): Option<State>
    decreases |actions|
  {
    if actions == [] then Some(s)
    else match Next(c, s, actions[0])
      case None => None
      case Some(s') => Follow(c, s', actions[1..])
  }

  lemma {:induction false} FollowAppend(c: Config, s: State, a: seq<Action>, s1: State, b: seq<Action>, s2: State)
    requires Follow(c, s, a) == Some(s1) && Follow(c, s1, b) == Some(s2)
    ensures Follow(c, s, a + b) == Some(s2)
    decreases |a|
  {
    if a == [] {
      assert a + b == b;
    } else {
      assert (a + b)[0] == a[0] && (a + b)[1..] == a[1..] + b;
      FollowAppend(c, Next(c, s, a[0]).value, a[1..], s1, b, s2);
    }
  }

  lemma FollowOne(c: Config, s: State, a: Action, s1: State)
    requires Next(c, s, a) == Some(s1)
    ensures Follow(c, s, [a]) == Some(s1)
  {
    assert Follow(c, s1, [a][1..]) == Some(s1);
  }

  lemma {:induction false} FollowReached(c: Config, s: State, actions: seq<Action>, s1: State)
    requires Reached(c, s) && Follow(c, s, actions) == Some(s1)
    ensures Reached(c, s1)
    decreases |actions|
  {
    if actions != [] {
      var s0, before :| Init(s0) && Exec(c, s0, before) == Some(s);
      var m := Next(c, s, actions[0]).value;
      assert (before + [actions[0]])[..|before|] == before;
      assert Exec(c, s0, before + [actions[0]]) == Some(m);
      FollowReached(c, m, actions[1..], s1);
    }
  }

  // ---- when Stop gives up -----------------------------------------------------------------------

  /** Monitor waits for mailbox updates when Stop cancels, and Close was never called. */
  ghost predicate CancelledWaiting(s: State) {
    && s.main.Waiting? && s.main.idling && s.down.stopper.StopUnlocked? && s.closing == Closing(false, 0, 0, 0, 0, 0, 0)
    && s.crew.nextId !in s.crew.results && s.now == s.audit.stopAt == s.audit.cancelAt
    && s.down.cancelled && s.down.wgRun == 1
  }

  /** Stop and Monitor start to wait at the same time. */
  lemma BothWait(c: Config, s: State) returns (s1: State, actions: seq<Action>)
    requires CancelledWaiting(s)
    ensures Follow(c, s, actions) == Some(s1)
    ensures s1.now == s.now && s1.main == StopWait(s.crew.nextId, CtxDone, s.now + c.shutdown)
    ensures s1.down == s.down.(stopper := StopClosing(s.now + c.shutdown)) && s1.closing.doneCloses == 0
    ensures s1.crew.results == s.crew.results
    ensures s1.audit.stopAt == s1.audit.cancelAt == s.now
  {
    var a := s.(closing := StartClose(s.closing), down := s.down.(stopper := StopClosing(s.now + c.shutdown)));
    var b := a.(main := StopEnter(s.main.ch, s.main.idling, CtxDone));
    s1 := StopStep(c, b, Go).value;
    FollowOne(c, s, StopperMoves(Go), a);
    FollowOne(c, a, MainMoves(TakeCtx), b);
    FollowOne(c, b, MainMoves(Go), s1);
    FollowAppend(c, s, [StopperMoves(Go)], a, [MainMoves(TakeCtx)], b);
    FollowAppend(c, s, [StopperMoves(Go)] + [MainMoves(TakeCtx)], b, [MainMoves(Go)], s1);
    actions := [StopperMoves(Go)] + [MainMoves(TakeCtx)] + [MainMoves(Go)];
  }

  /** Neither the stop function nor Close answers, and Monitor is in the given wait. */
  ghost predicate Unanswered(s: State, w: nat) {
    w !in s.crew.results && s.closing.doneCloses == 0 && s.down.wgRun == 1
  }

  /** The clock goes to the end of the waits of both. */
  lemma TimePasses(c: Config, s: State, w: nat, end: int) returns (s1: State)
    requires Unanswered(s, w) && s.now < end
    requires s.main in {StopWait(w, CtxDone, end), StopClose(w, CtxDone, end), StopDrain(w, CtxDone, end)}
    requires s.down.stopper in {StopClosing(end), StopJoining(end), StopReturned(true)}
    ensures s1 == s.(now := end) && Next(c, s, Tick(end)) == Some(s1)
  {
    s1 := s.(now := end);
  }

  lemma FollowThree(c: Config, s: State, a: Action, s1: State, b: Action, s2: State, d: Action, s3: State)
    requires Next(c, s, a) == Some(s1) && Next(c, s1, b) == Some(s2) && Next(c, s2, d) == Some(s3)
    ensures Follow(c, s, [a, b, d]) == Some(s3)
  {
    FollowOne(c, s, a, s1);
    FollowOne(c, s1, b, s2);
    FollowOne(c, s2, d, s3);
    FollowAppend(c, s, [a], s1, [b], s2);
    FollowAppend(c, s, [a] + [b], s2, [d], s3);
    assert [a] + [b] + [d] == [a, b, d];
  }

  /** Both give up their first wait: Stop for Close, Monitor for its stop function. */
  lemma FirstWaitEnds(c: Config, s: State, w: nat) returns (s1: State, actions: seq<Action>)
    requires c.shutdown >= 1 && Unanswered(s, w)
    requires s.main == StopWait(w, CtxDone, s.now + c.shutdown) && s.down.stopper == StopClosing(s.now + c.shutdown)
    ensures Follow(c, s, actions) == Some(s1) && Unanswered(s1, w)
    ensures s1.audit == s.audit && s1.down.cancelled == s.down.cancelled
    ensures s1.now == s.now + c.shutdown
    ensures s1.main == StopClose(w, CtxDone, s1.now + c.shutdown) && s1.down.stopper == StopJoining(s1.now + c.shutdown)
  {
    var a := TimePasses(c, s, w, s.now + c.shutdown);
    var b := a.(closing := StartClose(a.closing), main := StopClose(w, CtxDone, a.now + c.shutdown));
    s1 := b.(down := b.down.(stopper := StopJoining(a.now + c.shutdown)));
    FollowThree(c, s, Tick(a.now), a, MainMoves(TakeTimer), b, StopperMoves(TakeTimer), s1);
    actions := [Tick(a.now), MainMoves(TakeTimer), StopperMoves(TakeTimer)];
  }

  /** Stop returns while Monitor is still in closeTransport. */
  lemma StopReturnsFirst(c: Config, s: State, w: nat) returns (s1: State, actions: seq<Action>)
    requires c.shutdown >= 1 && Unanswered(s, w)
    requires s.main == StopClose(w, CtxDone, s.now + c.shutdown) && s.down.stopper == StopJoining(s.now + c.shutdown)
    ensures Follow(c, s, actions) == Some(s1) && Unanswered(s1, w) && s1.down.cancelled == s.down.cancelled
    ensures s1.now == s.now + c.shutdown && s1.main == s.main && s1.down.stopper == StopReturned(true)
    ensures s1.audit == s.audit.(stopEndAt := s1.now)
  {
    var a := TimePasses(c, s, w, s.now + c.shutdown);
    s1 := a.(down := a.down.(stopper := StopReturned(true)), audit := a.audit.(stopEndAt := a.now));
    FollowOne(c, s, Tick(a.now), a);
    FollowOne(c, a, StopperMoves(TakeTimer), s1);
    FollowAppend(c, s, [Tick(a.now)], a, [StopperMoves(TakeTimer)], s1);
    actions := [Tick(a.now)] + [StopperMoves(TakeTimer)];
  }

  /** Monitor waits a third time and returns. */
  lemma MonitorReturnsLast(c: Config, s: State, w: nat) returns (s1: State, actions: seq<Action>)
    requires c.shutdown >= 1 && Unanswered(s, w) && s.down.stopper == StopReturned(true)
    requires s.main.StopClose? && s.main == StopClose(w, CtxDone, s.now)
    ensures Follow(c, s, actions) == Some(s1)
    ensures s1.main == Returned(false) && s1.audit == s.audit.(returnedAt := s.now + c.shutdown)
  {
    var a := s.(main := StopDrain(w, CtxDone, s.now + c.shutdown));
    var b := TimePasses(c, a, w, s.now + c.shutdown);
    var d := b.(main := StopRet(CtxDone, false));
    s1 := Return(d, false);
    FollowThree(c, s, MainMoves(TakeTimer), a, Tick(b.now), b, MainMoves(TakeTimer), d);
    FollowOne(c, d, MainMoves(Go), s1);
    FollowAppend(c, s, [MainMoves(TakeTimer), Tick(b.now), MainMoves(TakeTimer)], d, [MainMoves(Go)], s1);
    actions := [MainMoves(TakeTimer), Tick(b.now), MainMoves(TakeTimer)] + [MainMoves(Go)];
  }

  /** From every such state there is a run, in which neither the stop function nor Close answers, with
      Stop back after 2S while Monitor goes on for another S and returns 3S after the cancellation. */
  lemma StopGivesUpFirst(c: Config, s: State) returns (s1: State, s2: State)
    requires c.shutdown >= 1 && Reached(c, s) && CancelledWaiting(s)
    ensures Reached(c, s1) && s1.down.stopper == StopReturned(true) && Counted(s1.main)
    ensures s1.now == s1.audit.stopEndAt == s1.audit.stopAt + 2 * c.shutdown
    ensures Reached(c, s2) && s2.main.Returned? && s2.audit.returnedAt == s2.audit.cancelAt + 3 * c.shutdown
  {
    var w := s.crew.nextId;
    var a, x := BothWait(c, s);
    var b, y := FirstWaitEnds(c, a, w);
    var d, z := StopReturnsFirst(c, b, w);
    var e, v := MonitorReturnsLast(c, d, w);
    FollowReached(c, s, x, a);
    FollowReached(c, a, y, b);
    FollowReached(c, b, z, d);
    FollowReached(c, d, v, e);
    s1, s2 := d, e;
  }

  // ---- the same while a phase runs ------------------------------------------------------------

  /** Monitor waits for a phase when Stop cancels, and Close was never called. */
  ghost predicate CancelledInPhase(s: State) {
    && s.main.PhaseWait? && s.main.w !in s.crew.results && s.down.stopper.StopUnlocked?
    && s.closing == Closing(false, 0, 0, 0, 0, 0, 0) && s.now == s.audit.stopAt && s.down.cancelled && s.down.wgRun == 1
  }

  lemma BothClose(c: Config, s: State) returns (s1: State, actions: seq<Action>)
    requires CancelledInPhase(s)
    ensures Follow(c, s, actions) == Some(s1) && Unanswered(s1, s.main.w)
    ensures s1.now == s.now && s1.main == PhaseClose(s.main.site, s.main.w, s.now + c.shutdown)
    ensures s1.down.stopper == StopClosing(s.now + c.shutdown) && s1.audit == s.audit
  {
    var a := s.(closing := StartClose(s.closing), down := s.down.(stopper := StopClosing(s.now + c.shutdown)));
    var b := a.(main := PhasePoll(s.main.site, s.main.w));
    s1 := b.(closing := StartClose(b.closing), main := PhaseClose(s.main.site, s.main.w, b.now + c.shutdown));
    FollowThree(c, s, StopperMoves(Go), a, MainMoves(TakeDone), b, MainMoves(Go), s1);
    actions := [StopperMoves(Go), MainMoves(TakeDone), MainMoves(Go)];
  }

  lemma TimePassesInPhase(c: Config, s: State, site: Site, w: nat, end: int) returns (s1: State)
    requires Unanswered(s, w) && s.now < end && s.main in {PhaseClose(site, w, end), PhaseDrain(site, w, end)}
    requires s.down.stopper in {StopClosing(end), StopJoining(end)}
    ensures s1 == s.(now := end) && Next(c, s, Tick(end)) == Some(s1)
  {
    s1 := s.(now := end);
  }

  /** Both give up their waits for Close and then wait for the phase and for Monitor; Stop is
      the first to go on. */
  lemma StopLeavesFirst(c: Config, s: State, site: Site, w: nat) returns (s1: State, actions: seq<Action>)
    requires c.shutdown >= 1 && Unanswered(s, w)
    requires s.main == PhaseClose(site, w, s.now + c.shutdown) && s.down.stopper == StopClosing(s.now + c.shutdown)
    ensures Follow(c, s, actions) == Some(s1)
    ensures s1.now == s.now + 2 * c.shutdown && s1.main == PhaseDrain(site, w, s1.now)
    ensures s1.down.stopper == StopReturned(true) && s1.audit == s.audit.(stopEndAt := s1.now)
  {
    var a := TimePassesInPhase(c, s, site, w, s.now + c.shutdown);
    var b := a.(main := PhaseDrain(site, w, a.now + c.shutdown));
    var d := b.(down := b.down.(stopper := StopJoining(b.now + c.shutdown)));
    var e := TimePassesInPhase(c, d, site, w, d.now + c.shutdown);
    s1 := e.(down := e.down.(stopper := StopReturned(true)), audit := e.audit.(stopEndAt := e.now));
    FollowThree(c, s, Tick(a.now), a, MainMoves(TakeTimer), b, StopperMoves(TakeTimer), d);
    FollowOne(c, d, Tick(e.now), e);
    FollowOne(c, e, StopperMoves(TakeTimer), s1);
    FollowAppend(c, d, [Tick(e.now)], e, [StopperMoves(TakeTimer)], s1);
    actions := [Tick(a.now), MainMoves(TakeTimer), StopperMoves(TakeTimer)]
               + ([Tick(e.now)] + [StopperMoves(TakeTimer)]);
    FollowAppend(c, s, [Tick(a.now), MainMoves(TakeTimer), StopperMoves(TakeTimer)], d,
                 [Tick(e.now)] + [StopperMoves(TakeTimer)], s1);
  }

  /** From every such state there is a run, in which neither the phase nor Close answers, with Stop
      back after 2S before Monitor. */
  lemma StopGivesUpOnPhase(c: Config, s: State) returns (s1: State)
    requires c.shutdown >= 1 && Reached(c, s) && CancelledInPhase(s)
    ensures Reached(c, s1) && s1.down.stopper == StopReturned(true) && s1.main.PhaseDrain?
    ensures s1.now == s1.audit.stopEndAt == s1.audit.stopAt + 2 * c.shutdown
  {
    var a, x := BothClose(c, s);
    var y;
    s1, y := StopLeavesFirst(c, a, s.main.site, s.main.w);
    FollowReached(c, s, x, a);
    FollowReached(c, a, y, s1);
  }

  // ---- such a state is reached ---------------------------------------------------------------------

  const NOTHING_YET := Closing(false, 0, 0, 0, 0, 0, 0)

  /** Nothing but successful phases so far. */
  ghost predicate Calm(s: State) {
    && s.crew.workers == map[] && (forall w :: w in s.crew.results ==> w < s.crew.nextId)
    && s.down == Shutdown(false, false, Free, 1, false, StopNotCalled) && s.closing == NOTHING_YET
    && s.session == Session(false, None, None, map[], 0, HandlerIdle, false)
    && s.server.count == 0 && s.now == 0
  }

  /** The first state of a run. */
  function Beginning(): State {
    State(0, Entry, 0, Crew(map[], map[], 0), Shutdown(false, false, Free, 0, false, StopNotCalled), NOTHING_YET,
          Session(false, None, None, map[], 0, HandlerIdle, false), Server(0, false, [], false),
          Audit(0, 0, 0, 0, 0, 0, 0, 0, 0))
  }

  lemma PassGate(c: Config) returns (s: State, actions: seq<Action>)
    ensures Follow(c, Beginning(), actions) == Some(s) && s.main == PhaseEnter(OnceHam) && Calm(s)
  {
    var s0 := Beginning();
    var a := GateStep(s0).value;
    var b := GateStep(a).value;
    s := GateStep(b).value;
    FollowThree(c, s0, MainMoves(Go), a, MainMoves(Go), b, MainMoves(Go), s);
    actions := [MainMoves(Go), MainMoves(Go), MainMoves(Go)];
  }

  /** A phase succeeds at once. */
  lemma PhaseSucceeds(c: Config, s: State) returns (s1: State, actions: seq<Action>)
    requires s.main.PhaseEnter? && Calm(s)
    ensures Follow(c, s, actions) == Some(s1) && s1.main == AfterPhase(s, s.main.site).main && Calm(s1)
  {
    var w, site := s.crew.nextId, s.main.site;
    var a := PhaseStep(c, s, Go).value;
    var b := a.(crew := Finish(a.crew, w, PhaseDone(true)));
    var d := b.(main := PhaseRet(site, true));
    s1 := AfterPhase(d, site);
    FollowThree(c, s, MainMoves(Go), a, WorkerMoves(w, true), b, MainMoves(TakeResult), d);
    FollowOne(c, d, MainMoves(Go), s1);
    FollowAppend(c, s, [MainMoves(Go), WorkerMoves(w, true), MainMoves(TakeResult)], d, [MainMoves(Go)], s1);
    actions := [MainMoves(Go), WorkerMoves(w, true), MainMoves(TakeResult)] + [MainMoves(Go)];
    assert b.crew.workers == map[];
  }

  /** The goroutine of startMonitor selects the empty box, registers a channel and starts IDLE. */
  lemma MonitorConnects(c: Config, s: State, w: nat) returns (s1: State, actions: seq<Action>)
    requires s.crew.workers == map[w := MonSelect]
    requires s.session == Session(false, None, None, map[], 0, HandlerIdle, false)
    requires s.server.count == 0
    ensures Follow(c, s, actions) == Some(s1)
    ensures s1.crew == Finish(s.crew, w, MonOk(0, true))
    ensures s1.now == s.now && s1.main == s.main && s1.down == s.down && s1.closing == s.closing
  {
    var a := MonWorkerStep(s, w, MonSelect, true).value;
    var b := MonWorkerStep(a, w, MonRegister(0), true).value;
    s1 := MonWorkerStep(b, w, MonIdle(0), true).value;
    assert a.crew.workers[w] == MonRegister(0) && b.crew.workers[w] == MonIdle(0);
    assert s1.crew.workers == map[];
    FollowThree(c, s, WorkerMoves(w, true), a, WorkerMoves(w, true), b, WorkerMoves(w, true), s1);
    actions := [WorkerMoves(w, true), WorkerMoves(w, true), WorkerMoves(w, true)];
  }

  lemma StartsToWait(c: Config, s: State) returns (s1: State, actions: seq<Action>)
    requires s.main == LoopTop && Calm(s)
    ensures Follow(c, s, actions) == Some(s1) && s1.main.Waiting? && s1.main.idling
    ensures s1.now == 0 && s1.down == s.down && s1.closing == NOTHING_YET && s1.crew.nextId !in s1.crew.results
  {
    var w := s.crew.nextId;
    var a := MonStep(c, s, Go).value;
    var b := MonStep(c, a, Go).value;
    FollowOne(c, s, MainMoves(Go), a);
    FollowOne(c, a, MainMoves(Go), b);
    FollowAppend(c, s, [MainMoves(Go)], a, [MainMoves(Go)], b);
    var d, x := MonitorConnects(c, b, w);
    FollowAppend(c, s, [MainMoves(Go)] + [MainMoves(Go)], b, x, d);
    s1 := MonitorStarted(c, d, MonOk(0, true));
    FollowOne(c, d, MainMoves(TakeResult), s1);
    FollowAppend(c, s, [MainMoves(Go)] + [MainMoves(Go)] + x, d, [MainMoves(TakeResult)], s1);
    actions := [MainMoves(Go)] + [MainMoves(Go)] + x + [MainMoves(TakeResult)];
  }

  lemma StopCancels(c: Config, s: State) returns (s1: State, actions: seq<Action>)
    requires s.main.Waiting? && s.main.idling && s.closing == NOTHING_YET && s.crew.nextId !in s.crew.results
    requires s.down == Shutdown(false, false, Free, 1, false, StopNotCalled)
    ensures Follow(c, s, actions) == Some(s1) && CancelledWaiting(s1)
  {
    var a := StopperStep(c, s, Go).value;
    s1 := StopperStep(c, a, Go).value;
    FollowOne(c, s, StopperMoves(Go), a);
    FollowOne(c, a, StopperMoves(Go), s1);
    FollowAppend(c, s, [StopperMoves(Go)], a, [StopperMoves(Go)], s1);
    actions := [StopperMoves(Go)] + [StopperMoves(Go)];
  }

  /** The three phases of the first pass succeed. */
  lemma FirstPass(c: Config) returns (s: State)
    ensures Reached(c, s) && s.main == LoopTop && Calm(s)
  {
    assert Exec(c, Beginning(), []) == Some(Beginning());
    var a, w := PassGate(c);
    FollowReached(c, Beginning(), w, a);
    var b, x := PhaseSucceeds(c, a);
    FollowReached(c, a, x, b);
    var d, y := PhaseSucceeds(c, b);
    FollowReached(c, b, y, d);
    var z;
    s, z := PhaseSucceeds(c, d);
    FollowReached(c, d, z, s);
  }

  /** The first phase runs when Stop cancels. */
  lemma PhaseIsCancelled(c: Config) returns (s: State)
    ensures Reached(c, s) && CancelledInPhase(s)
  {
    assert Exec(c, Beginning(), []) == Some(Beginning());
    var a, x := PassGate(c);
    FollowReached(c, Beginning(), x, a);
    var b := PhaseStep(c, a, Go).value;
    var d := StopperStep(c, b, Go).value;
    s := StopperStep(c, d, Go).value;
    FollowThree(c, a, MainMoves(Go), b, StopperMoves(Go), d, StopperMoves(Go), s);
    FollowReached(c, a, [MainMoves(Go), StopperMoves(Go), StopperMoves(Go)], s);
  }

  /** Stop can return 2S after its call while Monitor is still running, in a phase or with IDLE being
      ended, and Monitor can return as late as 3S after the cancellation. */
  lemma StopMayReturnFirst(c: Config) returns (s0: State, s1: State, s2: State)
    requires c.shutdown >= 1
    ensures Reached(c, s0) && s0.down.stopper == StopReturned(true) && s0.main.PhaseDrain?
    ensures s0.now == s0.audit.stopAt + 2 * c.shutdown
    ensures Reached(c, s1) && s1.down.stopper == StopReturned(true) && Counted(s1.main)
    ensures s1.now == s1.audit.stopEndAt == s1.audit.stopAt + 2 * c.shutdown
    ensures Reached(c, s2) && s2.main.Returned? && s2.audit.returnedAt == s2.audit.cancelAt + 3 * c.shutdown
  {
    var p := PhaseIsCancelled(c);
    s0 := StopGivesUpOnPhase(c, p);
    var a := FirstPass(c);
    var b, x := StartsToWait(c, a);
    FollowReached(c, a, x, b);
    var d, y := StopCancels(c, b);
    FollowReached(c, b, y, d);
    s1, s2 := StopGivesUpFirst(c, d);
  }
}
