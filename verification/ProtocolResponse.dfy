/** How long a mail in the scan box can wait for a scan phase to start. */
module ProtocolResponse {
  import opened Protocol
  import opened ProtocolSession
  import opened ProtocolShutdown
  import opened ProtocolTiming
  import opened Wrappers

  predicate ScanSite(site: Site) {
    site.OnceScan? || site.PerScan? || site.EventScan?
  }

  /** The step starts a phase that processes the scan box. */
  predicate ScanStarts(s: State, s': State) {
    s.main.PhaseEnter? && ScanSite(s.main.site) && s'.main.PhaseWait?
  }

  /** All through the run the scan box is not empty, and no scan phase starts. */
  ghost predicate Unserved(c: Config, s: State, actions: seq<Action>) {
    if actions == [] then s.server.count > 0
    else
      var n := |actions| - 1;
      && Unserved(c, s, actions[..n])
      && Exec(c, s, actions).Some? && Exec(c, s, actions).value.server.count > 0
      && !ScanStarts(Exec(c, s, actions[..n]).value, Exec(c, s, actions).value)
  }

  /** The longest time between two looks at the scan box. */
  function LookPeriod(c: Config): int {
    4 * c.op + c.idle + 5 * c.shutdown
  }

  // ---- a look at a box that is not empty leads to a scan phase ---------------------------------

  predicate EventReady(n: Session, ch: nat) {
    ch in n.chans && n.chans[ch].buf != [] && n.chans[ch].buf[0] > 0
  }

  /** The wait did not end by the idle lease, or with an event that is ignored. */
  predicate Telling(reason: Reason) {
    !reason.IdleExpired? && (reason.Event? ==> reason.count > 0)
  }

  predicate Started(s: State, w: nat) {
    && (w in s.crew.workers ==> s.crew.workers[w].MonSelect?)
    && (w in s.crew.results && s.crew.results[w].MonOk? ==>
          !s.crew.results[w].idling && EventReady(s.session, s.crew.results[w].ch))
  }

  /** Monitor has looked, or is looking, while there were mails. */
  predicate Seen(c: Config, s: State) {
    var known := s.audit.lookAt + c.op;
    match s.main
    case MonWait(w, _) => Started(s, w)
    case MonPoll(w) => Started(s, w)
    case MonClose(_) => true
    case Waiting(ch, idling, _, idleAt) => !idling && EventReady(s.session, ch) && s.now < idleAt && s.now <= known
    case StopEnter(_, _, reason) => Telling(reason) && s.now <= known
    case StopWait(_, reason, _) => Telling(reason) && s.audit.callAt <= known
    case StopClose(_, reason, _) => Telling(reason) && s.audit.callAt <= known
    case StopDrain(_, reason, _) => Telling(reason) && s.audit.callAt <= known
    case StopRet(reason, _) => Telling(reason) && s.audit.callAt <= known
    case PhaseEnter(site) => ScanSite(site) && s.now <= known + 3 * c.shutdown
    case PhaseRet(site, ok) => !ok && ScanSite(site) && s.now <= known + 3 * c.shutdown
    case Post(failed) => failed && s.now <= known + 3 * c.shutdown
    case Returned(_) => true
    case _ => false
  }

  /** No look began after from, or the first one after it leads to a scan phase. */
  predicate Heading(c: Config, from: int, s: State) {
    && (Counted(s.main) || s.main.Returned?)
    && (s.main.Returned? || s.audit.lookAt <= from || (s.audit.lookAt <= from + LookPeriod(c) && Seen(c, s)))
  }

  lemma PhaseKeepsHeading(c: Config, from: int, s: State, k: Case)
    requires TimeInv(c, s) && Heading(c, from, s) && PhaseStep(c, s, k).Some?
    requires !ScanStarts(s, PhaseStep(c, s, k).value)
    ensures Heading(c, from, PhaseStep(c, s, k).value)
  {
  }

  lemma MonKeepsHeading(c: Config, from: int, s: State, k: Case)
    requires TimeInv(c, s) && SessionInv(s) && Heading(c, from, s) && c.idle >= 1 && MonStep(c, s, k).Some?
    ensures Heading(c, from, MonStep(c, s, k).value)
  {
  }

  lemma WaitKeepsHeading(c: Config, from: int, s: State, k: Case)
    requires TimeInv(c, s) && Heading(c, from, s) && WaitStep(s, k).Some?
    ensures Heading(c, from, WaitStep(s, k).value)
  {
  }

  lemma AfterStopKeepsHeading(c: Config, from: int, s: State, reason: Reason, ok: bool)
    requires TimeInv(c, s) && Heading(c, from, s) && s.main == StopRet(reason, ok)
    ensures Heading(c, from, AfterStop(s, reason, ok))
  {
  }

  lemma StoppingKeepsHeading(c: Config, from: int, s: State, k: Case)
    requires TimeInv(c, s) && Heading(c, from, s) && StopStep(c, s, k).Some?
    requires s.main.StopEnter? || s.main.StopWait? || s.main.StopClose? || s.main.StopDrain?
    ensures Heading(c, from, StopStep(c, s, k).value)
  {
  }

  lemma StopKeepsHeading(c: Config, from: int, s: State, k: Case)
    requires TimeInv(c, s) && Heading(c, from, s) && StopStep(c, s, k).Some?
    ensures Heading(c, from, StopStep(c, s, k).value)
  {
    if s.main.StopRet? {
      AfterStopKeepsHeading(c, from, s, s.main.reason, s.main.ok);
    } else if !s.main.Post? {
      StoppingKeepsHeading(c, from, s, k);
    }
  }

  lemma MainKeepsHeading(c: Config, from: int, s: State, k: Case)
    requires TimeInv(c, s) && SessionInv(s) && Heading(c, from, s) && c.idle >= 1 && MainStep(c, s, k).Some?
    requires !ScanStarts(s, MainStep(c, s, k).value)
    ensures Heading(c, from, MainStep(c, s, k).value)
  {
    var m := s.main;
    if m.PhaseEnter? || m.PhaseWait? || m.PhasePoll? || m.PhaseClose? || m.PhaseDrain? || m.PhaseRet? {
      PhaseKeepsHeading(c, from, s, k);
    } else if m.LoopTop? || m.MonEnter? || m.MonWait? || m.MonPoll? || m.MonClose? {
      MonKeepsHeading(c, from, s, k);
    } else if m.Waiting? {
      WaitKeepsHeading(c, from, s, k);
    } else {
      StopKeepsHeading(c, from, s, k);
    }
  }

  lemma WorkerKeepsHeading(c: Config, from: int, s: State, w: nat, ok: bool)
    requires SessionInv(s) && Heading(c, from, s) && s.server.count > 0 && WorkerStep(s, w, ok).Some?
    ensures Heading(c, from, WorkerStep(s, w, ok).value)
  {
    WorkerLeavesShutdown(s, w, ok);
  }

  lemma HandlerKeepsHeading(c: Config, from: int, s: State)
    requires SessionInv(s) && Heading(c, from, s) && HandlerStep(s).Some?
    ensures Heading(c, from, HandlerStep(s).value)
  {
  }

  lemma TickKeepsHeading(c: Config, from: int, s: State, t: int)
    requires Heading(c, from, s) && MayTick(s, t)
    ensures Heading(c, from, s.(now := t))
  {
  }

  lemma OthersKeepHeading(c: Config, from: int, s: State, a: Action)
    requires Heading(c, from, s) && Next(c, s, a).Some?
    requires !a.MainMoves? && !a.WorkerMoves? && !a.HandlerMoves? && !a.Tick?
    ensures Heading(c, from, Next(c, s, a).value)
  {
  }

  lemma StepKeepsHeading(c: Config, from: int, s: State, a: Action)
    requires TimeInv(c, s) && SessionInv(s) && Heading(c, from, s) && c.idle >= 1 && s.server.count > 0
    requires Next(c, s, a).Some? && !ScanStarts(s, Next(c, s, a).value)
    ensures Heading(c, from, Next(c, s, a).value)
  {
    match a
    case MainMoves(k) => MainKeepsHeading(c, from, s, k);
    case WorkerMoves(w, ok) => WorkerKeepsHeading(c, from, s, w, ok);
    case HandlerMoves => HandlerKeepsHeading(c, from, s);
    case Tick(t) => TickKeepsHeading(c, from, s, t);
    case _ => OthersKeepHeading(c, from, s, a);
  }

  lemma {:induction false} StaysHeading(c: Config, s: State, actions: seq<Action>)
    requires TimeInv(c, s) && SessionInv(s) && Counted(s.main)
    requires c.idle >= 1 && Unserved(c, s, actions)
    ensures Exec(c, s, actions).Some?
    ensures var x := Exec(c, s, actions).value;
            TimeInv(c, x) && SessionInv(x) && Heading(c, s.now, x) && x.server.count > 0
    decreases |actions|
  {
    if actions != [] {
      var n := |actions| - 1;
      StaysHeading(c, s, actions[..n]);
      var m := Exec(c, s, actions[..n]).value;
      StepKeepsTime(c, m, actions[n]);
      StepKeepsSession(c, m, actions[n]);
      StepKeepsHeading(c, s.now, m, actions[n]);
    }
  }

  lemma HeadingIsBounded(c: Config, from: int, s: State)
    requires TimeInv(c, s) && Heading(c, from, s) && !s.main.Returned?
    ensures s.now <= from + 5 * c.op + c.idle + 8 * c.shutdown
  {
  }

  /** Bounded response: if Monitor runs and the scan box stays non-empty, then within 5O + I + 8S a
      scan phase starts or Monitor returns, as it does when a SELECT fails. This holds also for
      mails whose update was lost. */
  lemma MailsAreServed(c: Config, s: State, actions: seq<Action>)
    requires Reached(c, s) && Counted(s.main) && c.idle >= 1 && Unserved(c, s, actions)
    ensures Exec(c, s, actions).Some?
    ensures var x := Exec(c, s, actions).value;
            x.main.Returned? || x.now <= s.now + 5 * c.op + c.idle + 8 * c.shutdown
  {
    TimeHolds(c, s);
    SessionHolds(c, s);
    StaysHeading(c, s, actions);
    if !Exec(c, s, actions).value.main.Returned? {
      HeadingIsBounded(c, s.now, Exec(c, s, actions).value);
    }
  }
}
