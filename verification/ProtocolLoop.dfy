/** Monitor as the sequential program it is written as: whatever the interleaving, what can be
    observed of it is a run of that program, without timeouts, channels and goroutines. */
module ProtocolLoop {
  import opened Protocol
  import opened ProtocolSession
  import opened Wrappers

  // ---- the sequential program -------------------------------------------------------------------

  datatype Event =
    | Begun(site: Site)                      // the goroutine of a phase was started
    | PhaseEnded(site: Site, ok: bool)       // the phase function returned
    | Watch                                  // the goroutine of startMonitor was started
    | Watching(ok: bool)                     // and has its channel, or failed
    | Woken(reason: Reason, due: bool)       // a wait ended; due: the learn timer had run out
    | Stopped(ok: bool)                      // the stop function returned
    | Over(failed: bool, cancelled: bool)    // Monitor returned; cancelled: the context was

  /** An event and the time it happened. */
  datatype Mark = Mark(what: Event, at: int)

  /** Where the sequential program is. */
  datatype Place =
    | NotCalled
    | Running(site: Site)
    | Succeeded(site: Site)
    | Starting
    | Watched
    | Stopping(reason: Reason)
    | Awake(reason: Reason)
    | Failing                                // only its end can follow
    | Ended

  /** Which phase comes next: ham, spam and scan at first; after that scan, ham and spam when the learn
      timer ended the wait, and a scan when an event with a mail count did. */
  predicate MayBegin(p: Place, site: Site) {
    match site
    case OnceHam => p == NotCalled
    case OnceSpam => p == Succeeded(OnceHam)
    case OnceScan => p == Succeeded(OnceSpam)
    case PerScan => p == Awake(LearnDue)
    case PerHam => p == Succeeded(PerScan)
    case PerSpam => p == Succeeded(PerHam)
    case EventScan => p.Awake? && p.reason.Event? && p.reason.count > 0
  }

  /** When the next monitor is started. */
  predicate MayWatch(p: Place) {
    p == Succeeded(OnceScan) || p == Succeeded(PerSpam) || p == Succeeded(EventScan)
    || p == Awake(IdleExpired) || p == Awake(Event(0))
  }

  function AfterStopped(reason: Reason, ok: bool): Place {
    if ok && (reason.IdleExpired? || reason.LearnDue? || reason.Event?) then Awake(reason) else Failing
  }

  /** One event of the program. What an abandoned goroutine answers after the end does not count. */
  function After(p: Place, e: Event): Option<Place> {
    if p.Ended? then if e.PhaseEnded? || e.Watching? || e.Stopped? then Some(Ended) else None
    else match e
      case Begun(site) => if MayBegin(p, site) then Some(Running(site)) else None
      case PhaseEnded(site, ok) =>
        if p == Running(site) then Some(if ok then Succeeded(site) else Failing) else None
      case Watch => if MayWatch(p) then Some(Starting) else None
      case Watching(ok) => if p.Starting? then Some(if ok then Watched else Failing) else None
      case Woken(reason, _) => if p.Watched? then Some(Stopping(reason)) else None
      case Stopped(ok) => if p.Stopping? then Some(AfterStopped(p.reason, ok)) else None
      case Over(failed, cancelled) => if failed == !cancelled then Some(Ended) else None
  }

  /** Where the program is after a trace, if the trace is one of its runs. */
  function PlaceAfter(trace: seq<Mark>): Option<Place> {
    if trace == [] then Some(NotCalled)
    else match PlaceAfter(trace[..|trace| - 1])
      case None => None
      case Some(p) => After(p, trace[|trace| - 1].what)
  }

  // ---- what is observed of a run ------------------------------------------------------------------

  /** What the goroutine of Monitor does. */
  function SeenOfMain(c: Config, s: State, s': State): seq<Mark> {
    if s.main.PhaseEnter? && s'.main.PhaseWait? then [Mark(Begun(s.main.site), s'.now)]
    else if s.main.MonEnter? && s'.main.MonWait? then [Mark(Watch, s'.now)]
    else if s.main.Waiting? && s'.main.StopEnter? then
      [Mark(Woken(s'.main.reason, MainStep(c, s, TakeLearn).Some?), s'.now)]
    else if !s.main.Returned? && s'.main.Returned? then [Mark(Over(s'.main.failed, s.down.cancelled), s'.now)]
    else []
  }

  /** The last step of another goroutine: that of a phase leaves the answer of the phase function. */
  function Answer(k: Worker, ok: bool, r: WorkerResult): Event {
    match KindOf(k)
    case PhaseKind => PhaseEnded(k.site, ok)
    case MonKind => Watching(r.MonOk?)
    case StopKind => Stopped(r == StopDone(true))
  }

  function SeenOfWorker(s: State, w: nat, ok: bool, s': State): seq<Mark> {
    if w in s.crew.workers && w !in s'.crew.workers && w in s'.crew.results
    then [Mark(Answer(s.crew.workers[w], ok, s'.crew.results[w]), s'.now)] else []
  }

  function Seen(c: Config, s: State, a: Action, s': State): seq<Mark> {
    if a.MainMoves? then SeenOfMain(c, s, s') else if a.WorkerMoves? then SeenOfWorker(s, a.w, a.ok, s') else []
  }

  ghost function Trace(c: Config, s0: State, actions: seq<Action>): seq<Mark>
    requires Exec(c, s0, actions).Some?
  {
    if actions == [] then []
    else
      var n := |actions| - 1;
      Trace(c, s0, actions[..n])
        + Seen(c, Exec(c, s0, actions[..n]).value, actions[n], Exec(c, s0, actions).value)
  }

  // ---- the place of the sequential program in a state ------------------------------------------------

  predicate PhaseAnswered(crew: Crew, w: nat, site: Site, p: Place) {
    p == if w !in crew.results then Running(site)
         else if crew.results[w] == PhaseDone(true) then Succeeded(site) else Failing
  }

  predicate MonAnswered(crew: Crew, w: nat, p: Place) {
    p == if w !in crew.results then Starting else if crew.results[w].MonOk? then Watched else Failing
  }

  predicate StopAnswered(crew: Crew, w: nat, reason: Reason, p: Place) {
    p == if w !in crew.results then Stopping(reason) else AfterStopped(reason, crew.results[w] == StopDone(true))
  }

  predicate Cause(reason: Reason, cancelled: bool) {
    reason.CtxDone? ==> cancelled
  }

  predicate MainFits(m: Main, crew: Crew, cancelled: bool, p: Place) {
    match m
    case Entry => p == NotCalled
    case Gate => p == NotCalled
    case GatePassed => p == NotCalled
    case PhaseEnter(site) => MayBegin(p, site)
    case PhaseWait(site, w, _) => PhaseAnswered(crew, w, site, p)
    case PhasePoll(site, w) => PhaseAnswered(crew, w, site, p)
    case PhaseClose(site, w, _) => PhaseAnswered(crew, w, site, p)
    case PhaseDrain(site, w, _) => PhaseAnswered(crew, w, site, p)
    case PhaseRet(site, ok) => if ok then p == Succeeded(site) else !p.Ended?
    case LoopTop => MayWatch(p)
    case MonEnter => MayWatch(p)
    case MonWait(w, _) => MonAnswered(crew, w, p)
    case MonPoll(w) => MonAnswered(crew, w, p)
    case MonClose(_) => !p.Ended?
    case Waiting(_, _, _, _) => p == Watched
    case StopEnter(_, _, reason) => p == Stopping(reason) && Cause(reason, cancelled)
    case StopWait(w, reason, _) => StopAnswered(crew, w, reason, p) && Cause(reason, cancelled)
    case StopClose(w, reason, _) => StopAnswered(crew, w, reason, p) && Cause(reason, cancelled)
    case StopDrain(w, reason, _) => StopAnswered(crew, w, reason, p) && Cause(reason, cancelled)
    case StopRet(reason, ok) => !p.Ended? && (ok ==> p == AfterStopped(reason, true)) && Cause(reason, cancelled)
    case Post(failed) => if failed then !p.Ended? else MayWatch(p)
    case Returned(_) => p == Ended
  }

  predicate WorkerFits(k: Worker, p: Place) {
    || p.Ended?
    || match KindOf(k)
       case PhaseKind => p == Running(k.site)
       case MonKind => p == Starting
       case StopKind => p.Stopping?
  }

  ghost predicate Fits(s: State, p: Place) {
    && MainFits(s.main, s.crew, s.down.cancelled, p)
    && forall w :: w in s.crew.workers ==> WorkerFits(s.crew.workers[w], p)
  }

  /** The events seen in a step lead to a place that fits the next state. */
  ghost predicate Follows(seen: seq<Mark>, p: Place, s': State) {
    if seen == [] then Fits(s', p)
    else |seen| == 1 && After(p, seen[0].what).Some? && Fits(s', After(p, seen[0].what).value)
  }

  // ---- every step ------------------------------------------------------------------------------------

  lemma PhaseEnterFollows(c: Config, s: State, k: Case, p: Place)
    requires SessionInv(s) && Fits(s, p) && s.main.PhaseEnter? && PhaseStep(c, s, k).Some?
    ensures Follows(SeenOfMain(c, s, PhaseStep(c, s, k).value), p, PhaseStep(c, s, k).value)
  {
  }

  lemma PhaseWaitFollows(c: Config, s: State, k: Case, p: Place)
    requires SessionInv(s) && Fits(s, p) && s.main.PhaseWait? && PhaseStep(c, s, k).Some?
    ensures Follows(SeenOfMain(c, s, PhaseStep(c, s, k).value), p, PhaseStep(c, s, k).value)
  {
  }

  lemma PhasePollFollows(c: Config, s: State, k: Case, p: Place)
    requires SessionInv(s) && Fits(s, p) && s.main.PhasePoll? && PhaseStep(c, s, k).Some?
    ensures Follows(SeenOfMain(c, s, PhaseStep(c, s, k).value), p, PhaseStep(c, s, k).value)
  {
  }

  lemma PhaseCloseFollows(c: Config, s: State, k: Case, p: Place)
    requires SessionInv(s) && Fits(s, p) && s.main.PhaseClose? && PhaseStep(c, s, k).Some?
    ensures Follows(SeenOfMain(c, s, PhaseStep(c, s, k).value), p, PhaseStep(c, s, k).value)
  {
  }

  lemma PhaseDrainFollows(c: Config, s: State, k: Case, p: Place)
    requires SessionInv(s) && Fits(s, p) && s.main.PhaseDrain? && PhaseStep(c, s, k).Some?
    ensures Follows(SeenOfMain(c, s, PhaseStep(c, s, k).value), p, PhaseStep(c, s, k).value)
  {
  }

  lemma ReturnFollows(c: Config, s: State, failed: bool, p: Place)
    requires Fits(s, p) && !p.Ended? && !s.main.Returned? && failed == !s.down.cancelled
    requires !s.main.PhaseEnter? && !s.main.MonEnter? && !s.main.Waiting?
    ensures Follows(SeenOfMain(c, s, Return(s, failed)), p, Return(s, failed))
  {
  }

  lemma PhaseOkFollows(c: Config, s: State, site: Site, p: Place)
    requires SessionInv(s) && Fits(s, p) && s.main == PhaseRet(site, true)
    ensures Follows(SeenOfMain(c, s, AfterPhase(s, site)), p, AfterPhase(s, site))
  {
  }

  lemma PhaseRetFollows(c: Config, s: State, k: Case, p: Place)
    requires SessionInv(s) && Fits(s, p) && s.main.PhaseRet?
    ensures Follows(SeenOfMain(c, s, PhaseStep(c, s, k).value), p, PhaseStep(c, s, k).value)
  {
    if s.main.ok {
      PhaseOkFollows(c, s, s.main.site, p);
    } else if s.main.site != EventScan {
      ReturnFollows(c, s, !s.down.cancelled, p);
    }
  }

  lemma PhaseFollows(c: Config, s: State, k: Case, p: Place)
    requires SessionInv(s) && Fits(s, p) && PhaseStep(c, s, k).Some?
    ensures Follows(SeenOfMain(c, s, PhaseStep(c, s, k).value), p, PhaseStep(c, s, k).value)
  {
    match s.main
    case PhaseEnter(_) => PhaseEnterFollows(c, s, k, p);
    case PhaseWait(_, _, _) => PhaseWaitFollows(c, s, k, p);
    case PhasePoll(_, _) => PhasePollFollows(c, s, k, p);
    case PhaseClose(_, _, _) => PhaseCloseFollows(c, s, k, p);
    case PhaseDrain(_, _, _) => PhaseDrainFollows(c, s, k, p);
    case PhaseRet(_, _) => PhaseRetFollows(c, s, k, p);
    case _ =>
  }

  lemma LoopTopFollows(c: Config, s: State, k: Case, p: Place)
    requires SessionInv(s) && Fits(s, p) && s.main.LoopTop?
    ensures Follows(SeenOfMain(c, s, MonStep(c, s, k).value), p, MonStep(c, s, k).value)
  {
    if s.down.cancelled {
      ReturnFollows(c, s, false, p);
    }
  }

  lemma MonEnterFollows(c: Config, s: State, k: Case, p: Place)
    requires SessionInv(s) && Fits(s, p) && s.main.MonEnter? && MonStep(c, s, k).Some?
    ensures Follows(SeenOfMain(c, s, MonStep(c, s, k).value), p, MonStep(c, s, k).value)
  {
  }

  lemma MonitorStartedFollows(c: Config, s: State, r: WorkerResult, w: nat, p: Place)
    requires SessionInv(s) && Fits(s, p) && (s.main.MonWait? || s.main.MonPoll?) && s.main.w == w
    requires w in s.crew.results && s.crew.results[w] == r
    ensures Follows(SeenOfMain(c, s, MonitorStarted(c, s, r)), p, MonitorStarted(c, s, r))
  {
    if !r.MonOk? {
      ReturnFollows(c, s, !s.down.cancelled, p);
    }
  }

  lemma MonTakeFollows(c: Config, s: State, k: Case, p: Place)
    requires SessionInv(s) && Fits(s, p) && (s.main.MonWait? || s.main.MonPoll?) && MonStep(c, s, k).Some?
    ensures Follows(SeenOfMain(c, s, MonStep(c, s, k).value), p, MonStep(c, s, k).value)
  {
    if HasResult(s, s.main.w) {
      MonitorStartedFollows(c, s, s.crew.results[s.main.w], s.main.w, p);
    }
  }

  lemma MonCloseFollows(c: Config, s: State, k: Case, p: Place)
    requires SessionInv(s) && Fits(s, p) && s.main.MonClose? && MonStep(c, s, k).Some?
    ensures Follows(SeenOfMain(c, s, MonStep(c, s, k).value), p, MonStep(c, s, k).value)
  {
    ReturnFollows(c, s, !s.down.cancelled, p);
  }

  lemma MonFollows(c: Config, s: State, k: Case, p: Place)
    requires SessionInv(s) && Fits(s, p) && MonStep(c, s, k).Some?
    ensures Follows(SeenOfMain(c, s, MonStep(c, s, k).value), p, MonStep(c, s, k).value)
  {
    match s.main
    case LoopTop => LoopTopFollows(c, s, k, p);
    case MonEnter => MonEnterFollows(c, s, k, p);
    case MonWait(_, _) => MonTakeFollows(c, s, k, p);
    case MonPoll(_) => MonTakeFollows(c, s, k, p);
    case MonClose(_) => MonCloseFollows(c, s, k, p);
    case _ =>
  }

  lemma WaitFollows(c: Config, s: State, k: Case, p: Place)
    requires SessionInv(s) && Fits(s, p) && WaitStep(s, k).Some?
    ensures Follows(SeenOfMain(c, s, WaitStep(s, k).value), p, WaitStep(s, k).value)
  {
  }

  lemma StopEnterFollows(c: Config, s: State, k: Case, p: Place)
    requires SessionInv(s) && Fits(s, p) && s.main.StopEnter? && StopStep(c, s, k).Some?
    ensures Follows(SeenOfMain(c, s, StopStep(c, s, k).value), p, StopStep(c, s, k).value)
  {
  }

  lemma StopWaitFollows(c: Config, s: State, k: Case, p: Place)
    requires SessionInv(s) && Fits(s, p) && s.main.StopWait? && StopStep(c, s, k).Some?
    ensures Follows(SeenOfMain(c, s, StopStep(c, s, k).value), p, StopStep(c, s, k).value)
  {
  }

  lemma StopCloseFollows(c: Config, s: State, k: Case, p: Place)
    requires SessionInv(s) && Fits(s, p) && s.main.StopClose? && StopStep(c, s, k).Some?
    ensures Follows(SeenOfMain(c, s, StopStep(c, s, k).value), p, StopStep(c, s, k).value)
  {
  }

  lemma StopDrainFollows(c: Config, s: State, k: Case, p: Place)
    requires SessionInv(s) && Fits(s, p) && s.main.StopDrain? && StopStep(c, s, k).Some?
    ensures Follows(SeenOfMain(c, s, StopStep(c, s, k).value), p, StopStep(c, s, k).value)
  {
  }

  lemma AfterStopFollows(c: Config, s: State, reason: Reason, ok: bool, p: Place)
    requires SessionInv(s) && Fits(s, p) && s.main == StopRet(reason, ok)
    ensures Follows(SeenOfMain(c, s, AfterStop(s, reason, ok)), p, AfterStop(s, reason, ok))
  {
    if reason.CtxDone? {
      ReturnFollows(c, s, false, p);
    } else if !ok || reason.ConnDone? || reason.ChannelClosed? {
      ReturnFollows(c, s, !s.down.cancelled, p);
    }
  }

  lemma PostFollows(c: Config, s: State, k: Case, p: Place)
    requires SessionInv(s) && Fits(s, p) && s.main.Post?
    ensures Follows(SeenOfMain(c, s, StopStep(c, s, k).value), p, StopStep(c, s, k).value)
  {
    if s.down.cancelled {
      ReturnFollows(c, s, false, p);
    } else if s.main.failed {
      ReturnFollows(c, s, true, p);
    }
  }

  lemma StopFollows(c: Config, s: State, k: Case, p: Place)
    requires SessionInv(s) && Fits(s, p) && StopStep(c, s, k).Some?
    ensures Follows(SeenOfMain(c, s, StopStep(c, s, k).value), p, StopStep(c, s, k).value)
  {
    match s.main
    case StopEnter(_, _, _) => StopEnterFollows(c, s, k, p);
    case StopWait(_, _, _) => StopWaitFollows(c, s, k, p);
    case StopClose(_, _, _) => StopCloseFollows(c, s, k, p);
    case StopDrain(_, _, _) => StopDrainFollows(c, s, k, p);
    case StopRet(reason, ok) => AfterStopFollows(c, s, reason, ok, p);
    case Post(_) => PostFollows(c, s, k, p);
    case _ =>
  }

  lemma GateFollows(c: Config, s: State, p: Place)
    requires SessionInv(s) && Fits(s, p) && GateStep(s).Some?
    ensures Follows(SeenOfMain(c, s, GateStep(s).value), p, GateStep(s).value)
  {
  }

  lemma MainFollows(c: Config, s: State, k: Case, p: Place)
    requires SessionInv(s) && Fits(s, p) && MainStep(c, s, k).Some?
    ensures Follows(SeenOfMain(c, s, MainStep(c, s, k).value), p, MainStep(c, s, k).value)
  {
    var m := s.main;
    if m.Entry? || m.Gate? || m.GatePassed? {
      GateFollows(c, s, p);
    } else if m.PhaseEnter? || m.PhaseWait? || m.PhasePoll? || m.PhaseClose? || m.PhaseDrain? || m.PhaseRet? {
      PhaseFollows(c, s, k, p);
    } else if m.LoopTop? || m.MonEnter? || m.MonWait? || m.MonPoll? || m.MonClose? {
      MonFollows(c, s, k, p);
    } else if m.Waiting? {
      WaitFollows(c, s, k, p);
    } else {
      StopFollows(c, s, k, p);
    }
  }

  lemma PhaseWorkerFollows(s: State, w: nat, ok: bool, p: Place)
    requires SessionInv(s) && Fits(s, p) && w in s.crew.workers && s.crew.workers[w].Phase?
    ensures Follows(SeenOfWorker(s, w, ok, WorkerStep(s, w, ok).value), p, WorkerStep(s, w, ok).value)
  {
  }

  lemma FinishFollows(s: State, w: nat, ok: bool, r: WorkerResult, s': State, p: Place)
    requires SessionInv(s) && Fits(s, p) && w in s.crew.workers && !s.crew.workers[w].Phase?
    requires s'.main == s.main && s'.down == s.down && s'.crew == Finish(s.crew, w, r)
    requires ResultKind(r) == KindOf(s.crew.workers[w])
    ensures Follows(SeenOfWorker(s, w, ok, s'), p, s')
  {
  }

  lemma BecomeFollows(s: State, w: nat, ok: bool, k: Worker, s': State, p: Place)
    requires SessionInv(s) && Fits(s, p) && w in s.crew.workers && !s.crew.workers[w].Phase?
    requires s'.main == s.main && s'.down == s.down && s'.crew == Become(s.crew, w, k)
    requires KindOf(k) == KindOf(s.crew.workers[w])
    ensures Follows(SeenOfWorker(s, w, ok, s'), p, s')
  {
    BecomeKeepsCrew(s.crew, w, k);
  }

  lemma MonWorkerFollows(s: State, w: nat, k: Worker, ok: bool, p: Place)
    requires SessionInv(s) && Fits(s, p) && w in s.crew.workers && s.crew.workers[w] == k && KindOf(k).MonKind?
    requires MonWorkerStep(s, w, k, ok).Some?
    ensures Follows(SeenOfWorker(s, w, ok, MonWorkerStep(s, w, k, ok).value), p, MonWorkerStep(s, w, k, ok).value)
  {
    var s' := MonWorkerStep(s, w, k, ok).value;
    if w in s'.crew.workers {
      BecomeFollows(s, w, ok, s'.crew.workers[w], s', p);
    } else {
      FinishFollows(s, w, ok, s'.crew.results[w], s', p);
    }
  }

  lemma StopWorkerFollows(s: State, w: nat, k: Worker, ok: bool, p: Place)
    requires SessionInv(s) && Fits(s, p) && w in s.crew.workers && s.crew.workers[w] == k && KindOf(k).StopKind?
    requires StopWorkerStep(s, w, k, ok).Some?
    ensures Follows(SeenOfWorker(s, w, ok, StopWorkerStep(s, w, k, ok).value), p, StopWorkerStep(s, w, k, ok).value)
  {
    var s' := StopWorkerStep(s, w, k, ok).value;
    if w in s'.crew.workers {
      BecomeFollows(s, w, ok, s'.crew.workers[w], s', p);
    } else {
      FinishFollows(s, w, ok, s'.crew.results[w], s', p);
    }
  }

  lemma WorkerFollows(s: State, w: nat, ok: bool, p: Place)
    requires SessionInv(s) && Fits(s, p) && WorkerStep(s, w, ok).Some?
    ensures Follows(SeenOfWorker(s, w, ok, WorkerStep(s, w, ok).value), p, WorkerStep(s, w, ok).value)
  {
    var k := s.crew.workers[w];
    match KindOf(k)
    case PhaseKind => PhaseWorkerFollows(s, w, ok, p);
    case MonKind => MonWorkerFollows(s, w, k, ok, p);
    case StopKind => StopWorkerFollows(s, w, k, ok, p);
  }

  lemma OthersFit(c: Config, s: State, a: Action, p: Place)
    requires Fits(s, p) && Next(c, s, a).Some? && !a.MainMoves? && !a.WorkerMoves?
    ensures Fits(Next(c, s, a).value, p)
  {
  }

  lemma StepFollows(c: Config, s: State, a: Action, p: Place)
    requires SessionInv(s) && Fits(s, p) && Next(c, s, a).Some?
    ensures Follows(Seen(c, s, a, Next(c, s, a).value), p, Next(c, s, a).value)
  {
    match a
    case MainMoves(k) => MainFollows(c, s, k, p);
    case WorkerMoves(w, ok) => WorkerFollows(s, w, ok, p);
    case _ => OthersFit(c, s, a, p);
  }

  lemma PlaceSnoc(trace: seq<Mark>, m: Mark)
    requires PlaceAfter(trace).Some?
    ensures PlaceAfter(trace + [m]) == After(PlaceAfter(trace).value, m.what)
  {
    assert (trace + [m])[..|trace + [m]| - 1] == trace;
  }

  /** Whatever the interleaving, the trace of a run is one of the sequential program. */
  lemma {:induction false} MonitorIsSequential(c: Config, s0: State, actions: seq<Action>)
    requires Init(s0) && Exec(c, s0, actions).Some?
    ensures PlaceAfter(Trace(c, s0, actions)).Some?
    ensures Fits(Exec(c, s0, actions).value, PlaceAfter(Trace(c, s0, actions)).value)
    decreases |actions|
  {
    if actions != [] {
      var n := |actions| - 1;
      var s, before := Exec(c, s0, actions[..n]).value, Trace(c, s0, actions[..n]);
      MonitorIsSequential(c, s0, actions[..n]);
      SessionAlways(c, s0, actions[..n]);
      StepFollows(c, s, actions[n], PlaceAfter(before).value);
      var seen := Seen(c, s, actions[n], Exec(c, s0, actions).value);
      if seen == [] {
        assert before + seen == before;
      } else {
        assert seen == [seen[0]];
        PlaceSnoc(before, seen[0]);
      }
    }
  }

  // ---- complete rounds -------------------------------------------------------------------------------

  lemma {:induction false} PlaceAt(trace: seq<Mark>, n: nat)
    requires PlaceAfter(trace).Some? && n <= |trace|
    ensures PlaceAfter(trace[..n]).Some?
    ensures n < |trace| ==>
              && PlaceAfter(trace[..n + 1]).Some?
              && After(PlaceAfter(trace[..n]).value, trace[n].what) == Some(PlaceAfter(trace[..n + 1]).value)
    decreases |trace|
  {
    if n == |trace| {
      assert trace[..n] == trace;
    } else {
      var front := trace[..|trace| - 1];
      if n < |front| {
        PlaceAt(front, n);
        assert front[..n] == trace[..n] && front[..n + 1] == trace[..n + 1];
      } else {
        assert trace[..n] == front && trace[..n + 1] == trace;
      }
    }
  }

  /** After a failure no monitor is started any more. */
  lemma {:induction false} NoWatchAfterFailure(trace: seq<Mark>, i: nat, j: nat)
    requires PlaceAfter(trace).Some? && i <= j < |trace| && PlaceAfter(trace[..i]).Some?
    requires PlaceAfter(trace[..i]).value.Failing? || PlaceAfter(trace[..i]).value.Ended?
    ensures !trace[j].what.Watch?
    decreases j - i
  {
    PlaceAt(trace, i);
    if i < j {
      NoWatchAfterFailure(trace, i + 1, j);
    }
  }

  /** The phase begun at i succeeded, and the next one was begun directly after it. */
  lemma {:induction false} NextPhase(trace: seq<Mark>, i: nat, j: nat, site: Site)
    requires PlaceAfter(trace).Some? && i < j < |trace| && trace[i].what == Begun(site) && trace[j].what.Watch?
    ensures i + 2 <= j && trace[i + 1].what == PhaseEnded(site, true)
    ensures PlaceAfter(trace[..i + 2]) == Some(Succeeded(site))
  {
    PlaceAt(trace, i);
    PlaceAt(trace, i + 1);
    if PlaceAfter(trace[..i + 2]) != Some(Succeeded(site)) {
      NoWatchAfterFailure(trace, i + 2, j);
    }
  }

  predicate InRow(a: Site, b: Site, d: Site) {
    (a == OnceHam && b == OnceSpam && d == OnceScan) || (a == PerScan && b == PerHam && d == PerSpam)
  }

  lemma {:induction false} PhaseFollowsPhase(trace: seq<Mark>, i: nat, j: nat, a: Site, b: Site)
    requires PlaceAfter(trace).Some? && i <= j < |trace| && trace[j].what.Watch?
    requires PlaceAfter(trace[..i]) == Some(Succeeded(a)) && a != EventScan && a != OnceScan && a != PerSpam
    requires forall site :: MayBegin(Succeeded(a), site) ==> site == b
    ensures i + 2 <= j && trace[i].what == Begun(b) && trace[i + 1].what == PhaseEnded(b, true)
    ensures PlaceAfter(trace[..i + 2]) == Some(Succeeded(b))
  {
    PlaceAt(trace, i);
    if trace[i].what.Over? {
      NoWatchAfterFailure(trace, i + 1, j);
    } else {
      NextPhase(trace, i, j, b);
    }
  }

  lemma {:induction false} WatchFollows(trace: seq<Mark>, i: nat, j: nat, d: Site)
    requires PlaceAfter(trace).Some? && i <= j < |trace| && trace[j].what.Watch?
    requires PlaceAfter(trace[..i]) == Some(Succeeded(d)) && (d == OnceScan || d == PerSpam)
    ensures trace[i].what.Watch?
  {
    PlaceAt(trace, i);
    if trace[i].what.Over? {
      NoWatchAfterFailure(trace, i + 1, j);
    }
  }

  /** No round is cut short: between the begin of the first of three phases and the next start of a
      monitor all three were begun and succeeded, in their order, and nothing else happened. So a
      periodic pass that goes on to the next wait has learned ham and spam. */
  lemma {:induction false} RoundsAreComplete(trace: seq<Mark>, i: nat, j: nat, a: Site, b: Site, d: Site)
    requires PlaceAfter(trace).Some? && i < j < |trace| && InRow(a, b, d)
    requires trace[i].what == Begun(a) && trace[j].what.Watch? && forall k :: i < k < j ==> !trace[k].what.Watch?
    ensures j == i + 6
    ensures trace[i + 1].what == PhaseEnded(a, true) && trace[i + 2].what == Begun(b)
    ensures trace[i + 3].what == PhaseEnded(b, true) && trace[i + 4].what == Begun(d)
    ensures trace[i + 5].what == PhaseEnded(d, true)
  {
    NextPhase(trace, i, j, a);
    PhaseFollowsPhase(trace, i + 2, j, a, b);
    PhaseFollowsPhase(trace, i + 4, j, b, d);
    WatchFollows(trace, i + 6, j, d);
  }
}
