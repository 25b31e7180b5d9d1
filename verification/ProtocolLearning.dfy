/** When Monitor learns: not before the learn interval is over, and soon after it unless the select
    takes another ready case; and how long an idle lease lasts. */
module ProtocolLearning {
  import opened Protocol
  import opened ProtocolLoop
  import opened ProtocolSession
  import opened ProtocolShutdown
  import opened ProtocolTiming
  import opened Wrappers

  // ---- what a trace says about learning ----------------------------------------------------------

  /** learned: when the last learning round came to its last phase; passed: how often since then a
      wait ended otherwise although the learn timer had run out; delay: what that can cost. */
  datatype History = History(learned: Option<int>, passed: nat, delay: int, last: Option<Mark>)

  /** The longest time from the end of a wait to the next wait. */
  function Lap(c: Config): int {
    2 * c.op + 3 * c.shutdown
  }

  function Record(c: Config, h: History, m: Mark): History {
    match m.what
    case Begun(site) =>
      if site == OnceSpam || site == PerSpam then History(Some(m.at), 0, 0, Some(m)) else h.(last := Some(m))
    case Woken(reason, due) =>
      if due && reason != LearnDue then History(h.learned, h.passed + 1, h.delay + Lap(c), Some(m))
      else h.(last := Some(m))
    case _ => h.(last := Some(m))
  }

  function HistoryOf(c: Config, trace: seq<Mark>): History {
    if trace == [] then History(None, 0, 0, None)
    else Record(c, HistoryOf(c, trace[..|trace| - 1]), trace[|trace| - 1])
  }

  /** A periodic pass does not begin before the learn interval is over, counted from the last phase of
      the round before; and a wait that is ended by its idle lease has lasted exactly that long. */
  predicate InTime(c: Config, h: History, m: Mark) {
    && (m.what == Begun(PerScan) ==> h.learned.Some? && m.at >= h.learned.value + c.learn)
    && (m.what.Woken? && m.what.reason.IdleExpired? ==>
          h.last.Some? && h.last.value.what == Watching(true) && m.at == h.last.value.at + c.idle)
  }

  ghost predicate AllInTime(c: Config, trace: seq<Mark>) {
    forall i :: 0 <= i < |trace| ==> InTime(c, HistoryOf(c, trace[..i]), trace[i])
  }

  // ---- the clock of the learn timer ------------------------------------------------------------------

  /** The times that matter here: now, the end of the last learning round, the start of the current
      call, and the call of Monitor. */
  datatype Clock = Clock(now: int, learnedAt: int, callAt: int, startedAt: int)

  function ClockOf(s: State): Clock {
    Clock(s.now, s.lastLearnAt, s.audit.callAt, s.audit.startedAt)
  }

  /** The learn timer counts from a time shortly after the last learning phase began. */
  predicate DueFits(c: Config, t: Clock, learned: Option<int>, delay: int) {
    learned.Some? && learned.value <= t.learnedAt <= learned.value + 2 * c.op
  }

  /** When the phase at the site begins, at the latest. */
  predicate BeginsInTime(c: Config, t: Clock, learned: Option<int>, delay: int, site: Site, at: int) {
    var due := t.learnedAt + c.learn + delay;
    match site
    case OnceHam => learned.None? && at <= t.startedAt
    case OnceSpam => learned.None? && at <= t.startedAt + c.op
    case OnceScan => learned.Some? && learned.value <= t.now && at <= learned.value + c.op
    case PerScan =>
      DueFits(c, t, learned, delay) && t.learnedAt + c.learn <= t.now && at <= due + 2 * c.op + 6 * c.shutdown
    case PerHam => DueFits(c, t, learned, delay) && at <= due + 3 * c.op + 6 * c.shutdown
    case PerSpam => DueFits(c, t, learned, delay) && at <= due + 4 * c.op + 6 * c.shutdown
    case EventScan => DueFits(c, t, learned, delay) && at <= due + 3 * c.shutdown
  }

  predicate InPhaseInTime(c: Config, t: Clock, learned: Option<int>, delay: int, site: Site) {
    if site == OnceSpam || site == PerSpam then learned == Some(t.callAt) && t.callAt <= t.now
    else BeginsInTime(c, t, learned, delay, site, t.callAt)
  }

  /** A wait ended for this reason at the given time. */
  predicate WakesInTime(c: Config, t: Clock, learned: Option<int>, delay: int, reason: Reason, at: int) {
    && DueFits(c, t, learned, delay)
    && if reason.LearnDue? then t.learnedAt + c.learn <= t.now && at <= t.learnedAt + c.learn + delay + Lap(c)
       else at <= t.learnedAt + c.learn + delay
  }

  /** Between a wait and the next one. */
  predicate LoopsInTime(c: Config, t: Clock, learned: Option<int>, delay: int, at: int) {
    DueFits(c, t, learned, delay) && at <= t.learnedAt + c.learn + delay + c.op + 3 * c.shutdown
  }

  predicate WaitsInTime(c: Config, t: Clock, learned: Option<int>, delay: int, learnAt: int) {
    && DueFits(c, t, learned, delay) && learnAt <= t.learnedAt + c.learn + delay + Lap(c)
    && t.learnedAt + c.learn <= learnAt && (learnAt == t.learnedAt + c.learn || learnAt <= t.now)
  }

  predicate LearnClock(c: Config, m: Main, t: Clock, learned: Option<int>, delay: int) {
    match m
    case Entry => learned.None?
    case Gate => learned.None?
    case GatePassed => learned.None? && t.now <= t.startedAt
    case PhaseEnter(site) => BeginsInTime(c, t, learned, delay, site, t.now)
    case PhaseWait(site, _, _) => InPhaseInTime(c, t, learned, delay, site)
    case PhasePoll(site, _) => InPhaseInTime(c, t, learned, delay, site)
    case PhaseClose(site, _, _) => InPhaseInTime(c, t, learned, delay, site)
    case PhaseDrain(site, _, _) => InPhaseInTime(c, t, learned, delay, site)
    case PhaseRet(site, ok) =>
      InPhaseInTime(c, t, learned, delay, site) || (!ok && BeginsInTime(c, t, learned, delay, site, t.now))
    case LoopTop => LoopsInTime(c, t, learned, delay, t.now)
    case MonEnter => LoopsInTime(c, t, learned, delay, t.now)
    case MonWait(_, _) => LoopsInTime(c, t, learned, delay, t.callAt)
    case MonPoll(_) => LoopsInTime(c, t, learned, delay, t.callAt)
    case MonClose(_) => LoopsInTime(c, t, learned, delay, t.callAt)
    case Waiting(_, _, learnAt, _) => WaitsInTime(c, t, learned, delay, learnAt)
    case StopEnter(_, _, reason) => WakesInTime(c, t, learned, delay, reason, t.now)
    case StopWait(_, reason, _) => WakesInTime(c, t, learned, delay, reason, t.callAt)
    case StopClose(_, reason, _) => WakesInTime(c, t, learned, delay, reason, t.callAt)
    case StopDrain(_, reason, _) => WakesInTime(c, t, learned, delay, reason, t.callAt)
    case StopRet(reason, _) => WakesInTime(c, t, learned, delay, reason, t.callAt)
    case Post(failed) => LoopsInTime(c, t, learned, delay, t.now - (if failed then 2 * c.shutdown else 0))
    case Returned(_) => true
  }

  /** The answer of startMonitor that is waited for has just been given, and nothing happened since; nor
      while Monitor waits, with the idle lease counted from that answer. */
  predicate LastFits(c: Config, m: Main, results: map<nat, WorkerResult>, now: int, last: Option<Mark>) {
    match m
    case MonWait(w, _) => w in results && results[w].MonOk? ==> last == Some(Mark(Watching(true), now))
    case MonPoll(w) => w in results && results[w].MonOk? ==> last == Some(Mark(Watching(true), now))
    case Waiting(_, _, _, idleAt) => last == Some(Mark(Watching(true), idleAt - c.idle))
    case _ => true
  }

  predicate LearnTime(c: Config, s: State, h: History) {
    && h.delay >= 0 && LearnClock(c, s.main, ClockOf(s), h.learned, h.delay)
    && LastFits(c, s.main, s.crew.results, s.now, h.last)
  }

  predicate Advances(c: Config, h: History, seen: seq<Mark>, s': State) {
    if seen == [] then LearnTime(c, s', h)
    else |seen| == 1 && InTime(c, h, seen[0]) && LearnTime(c, s', Record(c, h, seen[0]))
  }

  // ---- every step -----------------------------------------------------------------------------------------

  lemma ReturnAdvances(c: Config, s: State, failed: bool, h: History)
    requires LearnTime(c, s, h) && !s.main.PhaseEnter? && !s.main.MonEnter? && !s.main.Waiting?
    ensures Advances(c, h, SeenOfMain(c, s, Return(s, failed)), Return(s, failed))
  {
  }

  lemma BeginAdvances(c: Config, s: State, site: Site, h: History)
    requires s.main == PhaseEnter(site) && LearnTime(c, s, h) && !s.down.cancelled
    ensures var s', m := PhaseStep(c, s, Go).value, Mark(Begun(site), s.now);
            s'.main.PhaseWait? && InTime(c, h, m) && LearnTime(c, s', Record(c, h, m))
  {
  }

  lemma PhaseEnterAdvances(c: Config, s: State, k: Case, h: History)
    requires s.main.PhaseEnter? && LearnTime(c, s, h) && PhaseStep(c, s, k).Some?
    ensures Advances(c, h, SeenOfMain(c, s, PhaseStep(c, s, k).value), PhaseStep(c, s, k).value)
  {
    if !s.down.cancelled {
      BeginAdvances(c, s, s.main.site, h);
      assert PhaseStep(c, s, k) == PhaseStep(c, s, Go);
    }
  }

  lemma PhaseWaitAdvances(c: Config, s: State, k: Case, h: History)
    requires s.main.PhaseWait? && PhaseStep(c, s, k).Some?
    requires TimeInv(c, s) && SessionInv(s) && LearnTime(c, s, h)
    ensures Advances(c, h, SeenOfMain(c, s, PhaseStep(c, s, k).value), PhaseStep(c, s, k).value)
  {
  }

  lemma PhasePollAdvances(c: Config, s: State, k: Case, h: History)
    requires s.main.PhasePoll? && PhaseStep(c, s, k).Some?
    requires TimeInv(c, s) && SessionInv(s) && LearnTime(c, s, h)
    ensures Advances(c, h, SeenOfMain(c, s, PhaseStep(c, s, k).value), PhaseStep(c, s, k).value)
  {
  }

  lemma PhaseCloseAdvances(c: Config, s: State, k: Case, h: History)
    requires s.main.PhaseClose? && PhaseStep(c, s, k).Some?
    requires TimeInv(c, s) && SessionInv(s) && LearnTime(c, s, h)
    ensures Advances(c, h, SeenOfMain(c, s, PhaseStep(c, s, k).value), PhaseStep(c, s, k).value)
  {
  }

  lemma PhaseDrainAdvances(c: Config, s: State, k: Case, h: History)
    requires s.main.PhaseDrain? && PhaseStep(c, s, k).Some?
    requires TimeInv(c, s) && SessionInv(s) && LearnTime(c, s, h)
    ensures Advances(c, h, SeenOfMain(c, s, PhaseStep(c, s, k).value), PhaseStep(c, s, k).value)
  {
  }

  lemma RoundEndAdvances(c: Config, s: State, site: Site, h: History)
    requires s.main == PhaseRet(site, true) && (site == OnceScan || site == PerSpam)
    requires TimeInv(c, s) && LearnTime(c, s, h)
    ensures LearnTime(c, AfterPhase(s, site), h)
  {
  }

  lemma PhaseOkAdvances(c: Config, s: State, site: Site, h: History)
    requires s.main == PhaseRet(site, true) && TimeInv(c, s) && LearnTime(c, s, h)
    ensures Advances(c, h, [], AfterPhase(s, site))
  {
    if site == OnceScan || site == PerSpam {
      RoundEndAdvances(c, s, site, h);
    }
  }

  lemma PhaseRetAdvances(c: Config, s: State, k: Case, h: History)
    requires s.main.PhaseRet? && TimeInv(c, s) && SessionInv(s) && LearnTime(c, s, h) && PhaseStep(c, s, k).Some?
    ensures Advances(c, h, SeenOfMain(c, s, PhaseStep(c, s, k).value), PhaseStep(c, s, k).value)
  {
    if s.main.ok {
      PhaseOkAdvances(c, s, s.main.site, h);
    } else if s.main.site != EventScan {
      ReturnAdvances(c, s, !s.down.cancelled, h);
    }
  }

  lemma PhaseAdvances(c: Config, s: State, k: Case, h: History)
    requires TimeInv(c, s) && SessionInv(s) && LearnTime(c, s, h) && PhaseStep(c, s, k).Some?
    ensures Advances(c, h, SeenOfMain(c, s, PhaseStep(c, s, k).value), PhaseStep(c, s, k).value)
  {
    match s.main
    case PhaseEnter(_) => PhaseEnterAdvances(c, s, k, h);
    case PhaseWait(_, _, _) => PhaseWaitAdvances(c, s, k, h);
    case PhasePoll(_, _) => PhasePollAdvances(c, s, k, h);
    case PhaseClose(_, _, _) => PhaseCloseAdvances(c, s, k, h);
    case PhaseDrain(_, _, _) => PhaseDrainAdvances(c, s, k, h);
    case PhaseRet(_, _) => PhaseRetAdvances(c, s, k, h);
    case _ =>
  }

  lemma MonStartAdvances(c: Config, s: State, k: Case, h: History)
    requires (s.main.LoopTop? || s.main.MonEnter? || s.main.MonClose?) && MonStep(c, s, k).Some?
    requires TimeInv(c, s) && SessionInv(s) && LearnTime(c, s, h)
    ensures Advances(c, h, SeenOfMain(c, s, MonStep(c, s, k).value), MonStep(c, s, k).value)
  {
  }

  lemma MonitorStartedAdvances(c: Config, s: State, r: WorkerResult, h: History)
    requires (s.main.MonWait? || s.main.MonPoll?) && TimeInv(c, s) && LearnTime(c, s, h)
    requires s.main.w in s.crew.results && s.crew.results[s.main.w] == r
    ensures Advances(c, h, SeenOfMain(c, s, MonitorStarted(c, s, r)), MonitorStarted(c, s, r))
  {
    if !r.MonOk? {
      ReturnAdvances(c, s, !s.down.cancelled, h);
    }
  }

  lemma MonTakeAdvances(c: Config, s: State, k: Case, h: History)
    requires (s.main.MonWait? || s.main.MonPoll?) && MonStep(c, s, k).Some?
    requires TimeInv(c, s) && SessionInv(s) && LearnTime(c, s, h)
    ensures Advances(c, h, SeenOfMain(c, s, MonStep(c, s, k).value), MonStep(c, s, k).value)
  {
    if HasResult(s, s.main.w) {
      MonitorStartedAdvances(c, s, s.crew.results[s.main.w], h);
    }
  }

  lemma MonAdvances(c: Config, s: State, k: Case, h: History)
    requires TimeInv(c, s) && SessionInv(s) && LearnTime(c, s, h) && MonStep(c, s, k).Some?
    ensures Advances(c, h, SeenOfMain(c, s, MonStep(c, s, k).value), MonStep(c, s, k).value)
  {
    if s.main.MonWait? || s.main.MonPoll? {
      MonTakeAdvances(c, s, k, h);
    } else {
      MonStartAdvances(c, s, k, h);
    }
  }

  lemma WaitAdvances(c: Config, s: State, k: Case, h: History)
    requires TimeInv(c, s) && LearnTime(c, s, h) && WaitStep(s, k).Some?
    ensures Advances(c, h, SeenOfMain(c, s, WaitStep(s, k).value), WaitStep(s, k).value)
  {
  }

  lemma StoppingAdvances(c: Config, s: State, k: Case, h: History)
    requires s.main.StopEnter? || s.main.StopWait? || s.main.StopClose? || s.main.StopDrain?
    requires TimeInv(c, s) && LearnTime(c, s, h) && StopStep(c, s, k).Some?
    ensures Advances(c, h, SeenOfMain(c, s, StopStep(c, s, k).value), StopStep(c, s, k).value)
  {
  }

  lemma PassAdvances(c: Config, s: State, h: History)
    requires s.main == StopRet(LearnDue, true) && TimeInv(c, s) && LearnTime(c, s, h)
    ensures LearnTime(c, s.(main := PhaseEnter(PerScan)), h)
  {
  }

  lemma GoesOnAdvances(c: Config, s: State, reason: Reason, h: History)
    requires s.main == StopRet(reason, true) && TimeInv(c, s) && LearnTime(c, s, h)
    requires !AfterStop(s, reason, true).main.Returned?
    ensures Advances(c, h, [], AfterStop(s, reason, true))
  {
    if reason.LearnDue? {
      PassAdvances(c, s, h);
    }
  }

  lemma AfterStopAdvances(c: Config, s: State, reason: Reason, ok: bool, h: History)
    requires s.main == StopRet(reason, ok) && TimeInv(c, s) && LearnTime(c, s, h)
    ensures Advances(c, h, SeenOfMain(c, s, AfterStop(s, reason, ok)), AfterStop(s, reason, ok))
  {
    if !AfterStop(s, reason, ok).main.Returned? {
      GoesOnAdvances(c, s, reason, h);
    } else {
      ReturnAdvances(c, s, false, h);
      ReturnAdvances(c, s, true, h);
    }
  }

  lemma PostAdvances(c: Config, s: State, k: Case, h: History)
    requires s.main.Post? && TimeInv(c, s) && LearnTime(c, s, h) && StopStep(c, s, k).Some?
    ensures Advances(c, h, SeenOfMain(c, s, StopStep(c, s, k).value), StopStep(c, s, k).value)
  {
  }

  lemma GateAdvances(c: Config, s: State, h: History)
    requires TimeInv(c, s) && LearnTime(c, s, h) && GateStep(s).Some?
    ensures Advances(c, h, SeenOfMain(c, s, GateStep(s).value), GateStep(s).value)
  {
  }

  lemma MainAdvances(c: Config, s: State, k: Case, h: History)
    requires TimeInv(c, s) && SessionInv(s) && LearnTime(c, s, h) && MainStep(c, s, k).Some?
    ensures Advances(c, h, SeenOfMain(c, s, MainStep(c, s, k).value), MainStep(c, s, k).value)
  {
    var m := s.main;
    if m.Entry? || m.Gate? || m.GatePassed? {
      GateAdvances(c, s, h);
    } else if m.PhaseEnter? || m.PhaseWait? || m.PhasePoll? || m.PhaseClose? || m.PhaseDrain? || m.PhaseRet? {
      PhaseAdvances(c, s, k, h);
    } else if m.LoopTop? || m.MonEnter? || m.MonWait? || m.MonPoll? || m.MonClose? {
      MonAdvances(c, s, k, h);
    } else if m.Waiting? {
      WaitAdvances(c, s, k, h);
    } else if m.StopRet? {
      AfterStopAdvances(c, s, m.reason, m.ok, h);
    } else if m.Post? {
      PostAdvances(c, s, k, h);
    } else {
      StoppingAdvances(c, s, k, h);
    }
  }

  lemma WorkerLeavesClock(s: State, w: nat, ok: bool)
    requires WorkerStep(s, w, ok).Some?
    ensures var s' := WorkerStep(s, w, ok).value; s'.main == s.main && ClockOf(s') == ClockOf(s)
  {
  }

  /** An answer is not counted, and no one else has answered while the goroutine was running. */
  lemma AnswerIsLast(c: Config, s: State, w: nat, ok: bool, r: WorkerResult)
    requires SessionInv(s) && w in s.crew.workers && (KindOf(s.crew.workers[w]).MonKind? || !r.MonOk?)
    ensures LastFits(c, s.main, s.crew.results[w := r], s.now, Some(Mark(Answer(s.crew.workers[w], ok, r), s.now)))
  {
  }

  lemma AnswerAdvances(c: Config, s: State, w: nat, ok: bool, s': State, h: History)
    requires SessionInv(s) && LearnTime(c, s, h) && w in s.crew.workers
    requires s'.main == s.main && ClockOf(s') == ClockOf(s)
    requires w in s'.crew.results && s'.crew.results == s.crew.results[w := s'.crew.results[w]]
    requires KindOf(s.crew.workers[w]).MonKind? || !s'.crew.results[w].MonOk?
    ensures var m := Mark(Answer(s.crew.workers[w], ok, s'.crew.results[w]), s'.now);
            InTime(c, h, m) && LearnTime(c, s', Record(c, h, m))
  {
    var m := Mark(Answer(s.crew.workers[w], ok, s'.crew.results[w]), s'.now);
    AnswerIsLast(c, s, w, ok, s'.crew.results[w]);
    assert s'.now == ClockOf(s').now == ClockOf(s).now == s.now;
  }

  lemma {:induction false} WorkerResults(s: State, w: nat, ok: bool)
    requires SessionInv(s) && WorkerStep(s, w, ok).Some?
    ensures var s' := WorkerStep(s, w, ok).value;
            if w in s'.crew.workers then s'.crew.results == s.crew.results
            else
              && w in s'.crew.results && s'.crew.results == s.crew.results[w := s'.crew.results[w]]
              && (KindOf(s.crew.workers[w]).MonKind? || !s'.crew.results[w].MonOk?)
  {
  }

  lemma WorkerAdvances(c: Config, s: State, w: nat, ok: bool, h: History)
    requires SessionInv(s) && LearnTime(c, s, h) && WorkerStep(s, w, ok).Some?
    ensures Advances(c, h, SeenOfWorker(s, w, ok, WorkerStep(s, w, ok).value), WorkerStep(s, w, ok).value)
  {
    var s' := WorkerStep(s, w, ok).value;
    WorkerLeavesClock(s, w, ok);
    WorkerResults(s, w, ok);
    if w !in s'.crew.workers {
      AnswerAdvances(c, s, w, ok, s', h);
    }
  }

  /** Where the clock can go on. */
  predicate Waits(m: Main) {
    m.PhaseWait? || m.PhaseClose? || m.PhaseDrain? || m.MonWait? || m.MonClose? || m.Waiting?
    || m.StopWait? || m.StopClose? || m.StopDrain? || m.Entry? || m.Returned?
  }

  lemma TickMeansWaiting(s: State, t: int)
    requires MayTick(s, t)
    ensures Waits(s.main) && s.now < t && (s.main.MonWait? ==> s.main.w !in s.crew.results)
  {
  }

  lemma TickLeavesPhase(c: Config, t: Clock, t': Clock, learned: Option<int>, delay: int, site: Site)
    requires InPhaseInTime(c, t, learned, delay, site) && t' == t.(now := t'.now) && t.now < t'.now
    ensures InPhaseInTime(c, t', learned, delay, site)
  {
  }

  lemma TickLeavesClock(c: Config, m: Main, t: Clock, t': Clock, learned: Option<int>, delay: int)
    requires LearnClock(c, m, t, learned, delay) && t' == t.(now := t'.now) && t.now < t'.now && Waits(m)
    ensures LearnClock(c, m, t', learned, delay)
  {
    if m.PhaseWait? || m.PhaseClose? || m.PhaseDrain? {
      TickLeavesPhase(c, t, t', learned, delay, m.site);
    }
  }

  lemma TickAdvances(c: Config, s: State, t: int, h: History)
    requires LearnTime(c, s, h) && MayTick(s, t)
    ensures LearnTime(c, s.(now := t), h)
  {
    TickMeansWaiting(s, t);
    TickLeavesClock(c, s.main, ClockOf(s), ClockOf(s).(now := t), h.learned, h.delay);
    assert ClockOf(s.(now := t)) == ClockOf(s).(now := t);
  }

  lemma OthersLeaveClock(c: Config, s: State, a: Action)
    requires Next(c, s, a).Some? && !a.MainMoves? && !a.WorkerMoves? && !a.Tick?
    ensures var s' := Next(c, s, a).value;
            s'.main == s.main && ClockOf(s') == ClockOf(s) && s'.crew.results == s.crew.results
  {
  }

  lemma OthersAdvance(c: Config, s: State, a: Action, h: History)
    requires LearnTime(c, s, h) && Next(c, s, a).Some? && !a.MainMoves? && !a.WorkerMoves? && !a.Tick?
    ensures LearnTime(c, Next(c, s, a).value, h)
  {
    OthersLeaveClock(c, s, a);
  }

  lemma StepAdvances(c: Config, s: State, a: Action, h: History)
    requires TimeInv(c, s) && SessionInv(s) && LearnTime(c, s, h) && Next(c, s, a).Some?
    ensures Advances(c, h, Seen(c, s, a, Next(c, s, a).value), Next(c, s, a).value)
  {
    match a
    case MainMoves(k) => MainAdvances(c, s, k, h);
    case WorkerMoves(w, ok) => WorkerAdvances(c, s, w, ok, h);
    case Tick(t) => TickAdvances(c, s, t, h);
    case _ => OthersAdvance(c, s, a, h);
  }

  lemma TraceStep(c: Config, trace: seq<Mark>, m: Mark)
    requires AllInTime(c, trace) && InTime(c, HistoryOf(c, trace), m)
    ensures AllInTime(c, trace + [m])
    ensures HistoryOf(c, trace + [m]) == Record(c, HistoryOf(c, trace), m)
  {
    var more := trace + [m];
    assert more[..|trace|] == trace;
    forall i | 0 <= i < |more|
      ensures InTime(c, HistoryOf(c, more[..i]), more[i])
    {
      if i < |trace| {
        assert more[..i] == trace[..i];
      }
    }
  }

  lemma {:induction false} LearnTimeAlways(c: Config, s0: State, actions: seq<Action>)
    requires Init(s0) && Exec(c, s0, actions).Some?
    ensures AllInTime(c, Trace(c, s0, actions))
    ensures LearnTime(c, Exec(c, s0, actions).value, HistoryOf(c, Trace(c, s0, actions)))
    decreases |actions|
  {
    if actions != [] {
      var n := |actions| - 1;
      var s, before := Exec(c, s0, actions[..n]).value, Trace(c, s0, actions[..n]);
      LearnTimeAlways(c, s0, actions[..n]);
      TimeAlways(c, s0, actions[..n]);
      SessionAlways(c, s0, actions[..n]);
      StepAdvances(c, s, actions[n], HistoryOf(c, before));
      var seen := Seen(c, s, actions[n], Exec(c, s0, actions).value);
      if seen == [] {
        assert before + seen == before;
      } else {
        assert seen == [seen[0]];
        TraceStep(c, before, seen[0]);
      }
    }
  }

  // ---- what it means -------------------------------------------------------------------------------------

  lemma {:induction false} DelayIsLaps(c: Config, trace: seq<Mark>)
    ensures HistoryOf(c, trace).delay == HistoryOf(c, trace).passed * Lap(c)
  {
    if trace != [] {
      var h := HistoryOf(c, trace[..|trace| - 1]);
      DelayIsLaps(c, trace[..|trace| - 1]);
      assert (h.passed + 1) * Lap(c) == h.passed * Lap(c) + Lap(c);
    }
  }

  lemma PhaseClockIsBounded(c: Config, s: State, h: History, site: Site)
    requires TimeInv(c, s) && LearnTime(c, s, h)
    requires s.main == PhaseEnter(site) || (InPhase(s.main) && s.main.site == site)
    ensures s.now <= (if h.learned.Some? then h.learned.value else s.audit.startedAt)
                     + c.learn + h.delay + 6 * c.op + 8 * c.shutdown
  {
  }

  lemma WakeClockIsBounded(c: Config, s: State, h: History, reason: Reason)
    requires CallTime(c, s.now, s.main, s.audit.callAt) && LearnTime(c, s, h)
    requires (s.main.StopEnter? || InStopIdle(s.main)) && s.main.reason == reason
    ensures s.now <= (if h.learned.Some? then h.learned.value else s.audit.startedAt)
                     + c.learn + h.delay + 6 * c.op + 8 * c.shutdown
  {
  }

  lemma LoopClockIsBounded(c: Config, s: State, h: History)
    requires CallTime(c, s.now, s.main, s.audit.callAt) && LearnTime(c, s, h)
    requires s.main.LoopTop? || s.main.MonEnter? || InStartMonitor(s.main) || s.main.Waiting? || s.main.Post?
    ensures s.now <= (if h.learned.Some? then h.learned.value else s.audit.startedAt)
                     + c.learn + h.delay + 6 * c.op + 8 * c.shutdown
  {
  }

  lemma ClockIsBounded(c: Config, s: State, h: History)
    requires TimeInv(c, s) && LearnTime(c, s, h) && Counted(s.main)
    ensures s.now <= (if h.learned.Some? then h.learned.value else s.audit.startedAt)
                     + c.learn + h.delay + 6 * c.op + 8 * c.shutdown
  {
    if s.main.PhaseEnter? || InPhase(s.main) {
      PhaseClockIsBounded(c, s, h, s.main.site);
    } else if s.main.StopEnter? || InStopIdle(s.main) {
      WakeClockIsBounded(c, s, h, s.main.reason);
    } else {
      LoopClockIsBounded(c, s, h);
    }
  }

  /** While Monitor runs, the last phase of a learning round was begun (or Monitor was called) at most
      the learn interval and 6O + 8S ago, and one lap of 2O + 3S more for each time since then that a
      wait ended otherwise although the learn timer had run out. */
  lemma {:induction false} LearnsInTime(c: Config, s0: State, actions: seq<Action>, s: State, h: History)
    requires Init(s0) && Exec(c, s0, actions) == Some(s) && h == HistoryOf(c, Trace(c, s0, actions))
    requires Counted(s.main)
    ensures s.now <= (if h.learned.Some? then h.learned.value else s.audit.startedAt)
                     + c.learn + h.passed * Lap(c) + 6 * c.op + 8 * c.shutdown
  {
    TimeAlways(c, s0, actions);
    LearnTimeAlways(c, s0, actions);
    DelayIsLaps(c, Trace(c, s0, actions));
    ClockIsBounded(c, s, h);
  }

  /** No periodic pass begins before the learn interval is over, counted from the begin of the last
      learning phase, and an idle lease lasts exactly the idle timeout. */
  lemma {:induction false} PassesAreSpaced(c: Config, s0: State, actions: seq<Action>, i: nat)
    requires Init(s0) && Exec(c, s0, actions).Some? && i < |Trace(c, s0, actions)|
    ensures var trace := Trace(c, s0, actions);
            var h, m := HistoryOf(c, trace[..i]), trace[i];
            && (m.what == Begun(PerScan) ==> h.learned.Some? && m.at >= h.learned.value + c.learn)
            && (m.what.Woken? && m.what.reason.IdleExpired? ==>
                  h.last.Some? && h.last.value.what == Watching(true) && m.at == h.last.value.at + c.idle)
  {
    LearnTimeAlways(c, s0, actions);
  }
}
