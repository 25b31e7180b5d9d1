/** How long learning can be put off: the select of Monitor takes any of its ready cases, so mails that
    keep coming can win against a learn timer that has run out, any number of times. */
module ProtocolPutOff {
  import opened Protocol
  import opened ProtocolLearning
  import opened ProtocolLoop
  import opened ProtocolShutdown
  import opened Wrappers

  /** Some run leads to s with this history. */
  ghost predicate Ran(c: Config, s: State, h: History) {
    exists s0, actions :: Init(s0) && Exec(c, s0, actions) == Some(s) && h == HistoryOf(c, Trace(c, s0, actions))
  }

  function Recorded(c: Config, h: History, seen: seq<Mark>): History {
    if seen == [] then h else Record(c, h, seen[0])
  }

  lemma {:induction false} ExecSnoc(c: Config, s0: State, actions: seq<Action>, a: Action, s: State)
    requires Exec(c, s0, actions) == Some(s)
    ensures Exec(c, s0, actions + [a]) == Next(c, s, a)
  {
    assert (actions + [a])[..|actions + [a]| - 1] == actions;
  }

  lemma {:induction false} TraceSnoc(c: Config, s0: State, actions: seq<Action>, a: Action, s: State, s': State)
    requires Exec(c, s0, actions) == Some(s) && Exec(c, s0, actions + [a]) == Some(s')
    ensures Trace(c, s0, actions + [a]) == Trace(c, s0, actions) + Seen(c, s, a, s')
  {
    assert (actions + [a])[..|actions + [a]| - 1] == actions;
  }

  lemma {:induction false} HistorySnoc(c: Config, trace: seq<Mark>, seen: seq<Mark>)
    requires |seen| <= 1
    ensures HistoryOf(c, trace + seen) == Recorded(c, HistoryOf(c, trace), seen)
  {
    if seen == [] {
      assert trace + seen == trace;
    } else {
      assert (trace + seen)[..|trace + seen| - 1] == trace;
    }
  }

  lemma {:induction false} RanExtends(c: Config, s: State, h: History, a: Action, s': State, seen: seq<Mark>)
    requires Ran(c, s, h) && Next(c, s, a) == Some(s') && seen == Seen(c, s, a, s')
    ensures Ran(c, s', Recorded(c, h, seen))
  {
    var s0, actions :| Init(s0) && Exec(c, s0, actions) == Some(s) && h == HistoryOf(c, Trace(c, s0, actions));
    ExecSnoc(c, s0, actions, a, s);
    TraceSnoc(c, s0, actions, a, s, s');
    HistorySnoc(c, Trace(c, s0, actions), seen);
  }

  /** States with their histories, for the steps below: which these are does not matter there, only that
      every step leads to another of them. */
  type Runs = iset<(State, History)>

  ghost predicate Extends(c: Config, runs: Runs, s: State, h: History, a: Action) {
    (s, h) in runs && Next(c, s, a).Some? ==>
      var s' := Next(c, s, a).value; (s', Recorded(c, h, Seen(c, s, a, s'))) in runs
  }

  ghost predicate Closed(c: Config, runs: Runs) {
    forall s, h, a :: Extends(c, runs, s, h, a)
  }

  lemma RanIsClosed(c: Config)
    ensures Closed(c, iset s, h | Ran(c, s, h) :: (s, h))
  {
    var runs := iset s, h | Ran(c, s, h) :: (s, h);
    forall s, h, a
      ensures Extends(c, runs, s, h, a)
    {
      if (s, h) in runs && Next(c, s, a).Some? {
        var s' := Next(c, s, a).value;
        RanExtends(c, s, h, a, s', Seen(c, s, a, s'));
      }
    }
  }

  lemma RanStep(c: Config, runs: Runs, s: State, h: History, a: Action, s': State, seen: seq<Mark>)
    requires Closed(c, runs) && (s, h) in runs && Next(c, s, a) == Some(s') && seen == Seen(c, s, a, s')
    ensures (s', Recorded(c, h, seen)) in runs
  {
    assert Extends(c, runs, s, h, a);
  }

  /** A step of Monitor of which nothing is seen. */
  lemma {:induction false} RanSilent(c: Config, runs: Runs, s: State, h: History, k: Case, s': State)
    requires Closed(c, runs) && (s, h) in runs && MainStep(c, s, k) == Some(s') && SeenOfMain(c, s, s') == []
    ensures (s', h) in runs
  {
    RanStep(c, runs, s, h, MainMoves(k), s', []);
  }

  /** Nobody stops Monitor, nothing else runs, and there are mails in the scan box. */
  ghost predicate Calm(s: State) {
    && !s.down.cancelled && s.down.runMu == Free && s.down.stopper == StopNotCalled && !s.session.connClosed
    && s.crew.workers == map[] && (forall w :: w in s.crew.results ==> w < s.crew.nextId) && s.server.count > 0
  }

  /** Monitor waits for worker w, which is the only one. */
  ghost predicate CalmBut(s: State, w: nat, k: Worker) {
    && Calm(s.(crew := s.crew.(workers := map[]))) && s.crew.workers == map[w := k] && w < s.crew.nextId
    && w !in s.crew.results
  }

  lemma PhaseBegins(c: Config, runs: Runs, s: State, h: History, site: Site) returns (s': State, h': History)
    requires Closed(c, runs) && (s, h) in runs && Calm(s) && s.main == PhaseEnter(site)
    ensures (s', h') in runs && h' == Record(c, h, Mark(Begun(site), s.now))
    ensures s'.main == PhaseWait(site, s.crew.nextId, s.now + c.op) && CalmBut(s', s.crew.nextId, Phase(site))
    ensures s'.now == s.now && s'.lastLearnAt == s.lastLearnAt
  {
    s' := PhaseStep(c, s, Go).value;
    h' := Record(c, h, Mark(Begun(site), s.now));
    RanStep(c, runs, s, h, MainMoves(Go), s', [Mark(Begun(site), s.now)]);
  }

  lemma PhaseLasts(c: Config, runs: Runs, s: State, h: History, site: Site, w: nat, deadline: int) returns (s': State)
    requires Closed(c, runs) && (s, h) in runs
    requires CalmBut(s, w, Phase(site)) && s.main == PhaseWait(site, w, deadline) && s.now < deadline
    ensures (s', h) in runs && s' == s.(now := s.now + 1)
  {
    s' := s.(now := s.now + 1);
    RanStep(c, runs, s, h, Tick(s.now + 1), s', []);
  }

  lemma PhaseAnswers(c: Config, runs: Runs, s: State, h: History, site: Site, w: nat, deadline: int)
    returns (s': State, h': History)
    requires Closed(c, runs) && (s, h) in runs && CalmBut(s, w, Phase(site)) && s.main == PhaseWait(site, w, deadline)
    ensures (s', h') in runs && h'.learned == h.learned && h'.passed == h.passed
    ensures s' == s.(crew := Crew(map[], s.crew.results[w := PhaseDone(true)], s.crew.nextId))
  {
    s' := WorkerStep(s, w, true).value;
    var m := Mark(PhaseEnded(site, true), s.now);
    h' := Record(c, h, m);
    RanStep(c, runs, s, h, WorkerMoves(w, true), s', [m]);
    assert s'.crew.workers == map[];
  }

  lemma PhaseIsTaken(c: Config, runs: Runs, s: State, h: History, site: Site, w: nat, deadline: int) returns (s': State)
    requires Closed(c, runs) && (s, h) in runs && Calm(s) && s.main == PhaseWait(site, w, deadline)
    requires w in s.crew.results && s.crew.results[w] == PhaseDone(true)
    ensures (s', h) in runs && Calm(s') && s' == AfterPhase(s, site)
  {
    var s1 := s.(main := PhaseRet(site, true));
    RanSilent(c, runs, s, h, TakeResult, s1);
    s' := AfterPhase(s, site);
    assert s' == AfterPhase(s1, site);
    RanSilent(c, runs, s1, h, Go, s');
  }

  /** A phase starts, lasts for one tick if it may, and succeeds. */
  lemma PhasePasses(c: Config, runs: Runs, s: State, h: History, site: Site, lasts: bool)
    returns (s': State, h': History)
    requires Closed(c, runs) && (s, h) in runs && Calm(s) && s.main == PhaseEnter(site) && (lasts ==> c.op >= 1)
    ensures (s', h') in runs && Calm(s') && s'.now == s.now + (if lasts then 1 else 0)
    ensures s'.main == AfterPhase(s, site).main
    ensures s'.lastLearnAt == if site == OnceScan || site == PerSpam then s'.now else s.lastLearnAt
    ensures var r := Record(c, h, Mark(Begun(site), s.now)); h'.learned == r.learned && h'.passed == r.passed
  {
    var w, deadline := s.crew.nextId, s.now + c.op;
    var s1, h1 := PhaseBegins(c, runs, s, h, site);
    var s2 := s1;
    if lasts {
      s2 := PhaseLasts(c, runs, s1, h1, site, w, deadline);
    }
    var s3, h3 := PhaseAnswers(c, runs, s2, h1, site, w, deadline);
    s' := PhaseIsTaken(c, runs, s3, h3, site, w, deadline);
    h' := h3;
  }

  /** What counts of a history. */
  predicate Same(h: History, h': History) {
    h'.learned == h.learned && h'.passed == h.passed
  }

  lemma Connects(c: Config, runs: Runs, s: State, h: History) returns (s': State, h': History)
    requires Closed(c, runs) && (s, h) in runs && Calm(s) && s.main == LoopTop
    ensures (s', h') in runs && Same(h, h') && s'.main == MonWait(s.crew.nextId, s.now + c.op)
    ensures CalmBut(s', s.crew.nextId, MonSelect) && s'.now == s.now && s'.lastLearnAt == s.lastLearnAt
  {
    var s1 := s.(main := MonEnter);
    RanSilent(c, runs, s, h, Go, s1);
    s' := MonStep(c, s1, Go).value;
    var m := Mark(Watch, s.now);
    h' := Record(c, h, m);
    RanStep(c, runs, s1, h, MainMoves(Go), s', [m]);
  }

  /** An event with a mail count waits in the channel. */
  predicate EventIn(s: State, ch: nat) {
    ch in s.session.chans && s.session.chans[ch].buf != [] && s.session.chans[ch].buf[0] > 0
  }

  lemma SelectFindsMails(c: Config, runs: Runs, s: State, h: History, w: nat, deadline: int)
    returns (s': State, h': History, ch: nat)
    requires Closed(c, runs) && (s, h) in runs && CalmBut(s, w, MonSelect) && s.main == MonWait(w, deadline)
    ensures (s', h') in runs && Same(h, h') && Calm(s') && s'.main == s.main && EventIn(s', ch)
    ensures w in s'.crew.results && s'.crew.results[w] == MonOk(ch, false)
    ensures s'.now == s.now && s'.lastLearnAt == s.lastLearnAt
  {
    ch := s.session.nextCh;
    s' := MonWorkerStep(s, w, MonSelect, true).value;
    var m := Mark(Watching(true), s.now);
    h' := Record(c, h, m);
    RanStep(c, runs, s, h, WorkerMoves(w, true), s', [m]);
    assert s'.crew.workers == map[];
  }

  /** The event is taken, also if the learn timer has run out. */
  lemma EventIsTaken(c: Config, runs: Runs, s: State, h: History, ch: nat, learnAt: int, idleAt: int)
    returns (s': State, h': History, n: nat)
    requires Closed(c, runs) && (s, h) in runs
    requires Calm(s) && s.main == Waiting(ch, false, learnAt, idleAt) && EventIn(s, ch)
    ensures (s', h') in runs && Calm(s') && n > 0 && s'.main == StopEnter(ch, false, Event(n))
    ensures s'.now == s.now && s'.lastLearnAt == s.lastLearnAt
    ensures h'.learned == h.learned && h'.passed == h.passed + if s.now >= learnAt then 1 else 0
  {
    n := s.session.chans[ch].buf[0];
    s' := WaitStep(s, TakeEvent).value;
    var m := Mark(Woken(Event(n), s.now >= learnAt), s.now);
    h' := Record(c, h, m);
    RanStep(c, runs, s, h, MainMoves(TakeEvent), s', [m]);
  }

  lemma StopBegins(c: Config, runs: Runs, s: State, h: History, ch: nat, reason: Reason) returns (s': State)
    requires Closed(c, runs) && (s, h) in runs && Calm(s) && s.main == StopEnter(ch, false, reason)
    ensures (s', h) in runs && s'.main == StopWait(s.crew.nextId, reason, s.now + c.shutdown)
    ensures CalmBut(s', s.crew.nextId, StopNoop) && s'.now == s.now && s'.lastLearnAt == s.lastLearnAt
  {
    s' := StopStep(c, s, Go).value;
    RanSilent(c, runs, s, h, Go, s');
  }

  lemma StopAnswers(c: Config, runs: Runs, s: State, h: History, w: nat, reason: Reason, deadline: int)
    returns (s': State, h': History)
    requires Closed(c, runs) && (s, h) in runs && CalmBut(s, w, StopNoop) && s.main == StopWait(w, reason, deadline)
    ensures (s', h') in runs && Same(h, h')
    ensures s' == s.(crew := Crew(map[], s.crew.results[w := StopDone(true)], s.crew.nextId))
  {
    s' := StopWorkerStep(s, w, StopNoop, true).value;
    var m := Mark(Stopped(true), s.now);
    h' := Record(c, h, m);
    RanStep(c, runs, s, h, WorkerMoves(w, true), s', [m]);
    assert s'.crew.workers == map[];
  }

  lemma StopIsTaken(c: Config, runs: Runs, s: State, h: History, w: nat, n: nat, deadline: int) returns (s': State)
    requires Closed(c, runs) && (s, h) in runs && Calm(s) && s.main == StopWait(w, Event(n), deadline) && n > 0
    requires w in s.crew.results && s.crew.results[w] == StopDone(true)
    ensures (s', h) in runs && Calm(s') && s' == s.(main := PhaseEnter(EventScan))
  {
    var s1 := s.(main := StopRet(Event(n), true));
    RanSilent(c, runs, s, h, TakeResult, s1);
    s' := s.(main := PhaseEnter(EventScan));
    RanSilent(c, runs, s1, h, Go, s');
  }

  lemma EventLeadsToScan(c: Config, runs: Runs, s: State, h: History, ch: nat, learnAt: int, idleAt: int)
    returns (s': State, h': History)
    requires Closed(c, runs) && (s, h) in runs
    requires Calm(s) && s.main == Waiting(ch, false, learnAt, idleAt) && EventIn(s, ch)
    ensures (s', h') in runs && Calm(s') && s'.main == PhaseEnter(EventScan)
    ensures s'.now == s.now && s'.lastLearnAt == s.lastLearnAt
    ensures h'.learned == h.learned && h'.passed == h.passed + if s.now >= learnAt then 1 else 0
  {
    var s1, h1, n := EventIsTaken(c, runs, s, h, ch, learnAt, idleAt);
    var s2 := StopBegins(c, runs, s1, h1, ch, Event(n));
    var s3, h3 := StopAnswers(c, runs, s2, h1, s1.crew.nextId, Event(n), s1.now + c.shutdown);
    s' := StopIsTaken(c, runs, s3, h3, s1.crew.nextId, n, s1.now + c.shutdown);
    h' := h3;
  }

  lemma WaitsWithMails(c: Config, runs: Runs, s: State, h: History) returns (s': State, h': History, ch: nat)
    requires Closed(c, runs) && (s, h) in runs && Calm(s) && s.main == LoopTop
    ensures (s', h') in runs && Same(h, h') && Calm(s') && EventIn(s', ch)
    ensures var due := s.lastLearnAt + c.learn;
            s'.main == Waiting(ch, false, if due > s.now then due else s.now, s.now + c.idle)
    ensures s'.now == s.now && s'.lastLearnAt == s.lastLearnAt
  {
    var w := s.crew.nextId;
    var s1, h1 := Connects(c, runs, s, h);
    var s2;
    s2, h', ch := SelectFindsMails(c, runs, s1, h1, w, s.now + c.op);
    s' := MonitorStarted(c, s2, MonOk(ch, false));
    RanSilent(c, runs, s2, h', TakeResult, s');
  }

  /** One round of the loop with mails in the scan box: a wait that ends at once and a scan of one tick. */
  lemma OneRound(c: Config, runs: Runs, s: State, h: History) returns (s': State, h': History)
    requires Closed(c, runs) && (s, h) in runs && Calm(s) && s.main == LoopTop && c.op >= 1
    ensures (s', h') in runs && Calm(s') && s'.main == LoopTop
    ensures s'.now == s.now + 1 && s'.lastLearnAt == s.lastLearnAt && h'.learned == h.learned
    ensures h'.passed == h.passed + if s.now >= s.lastLearnAt + c.learn then 1 else 0
  {
    var due := s.lastLearnAt + c.learn;
    var s1, h1, ch := WaitsWithMails(c, runs, s, h);
    var s2, h2 := EventLeadsToScan(c, runs, s1, h1, ch, if due > s.now then due else s.now, s.now + c.idle);
    var s3, h3 := PhasePasses(c, runs, s2, h2, EventScan, true);
    s', h' := s3.(main := LoopTop), h3;
    RanSilent(c, runs, s3, h3, Go, s');
  }

  lemma {:induction false} ManyRounds(c: Config, runs: Runs, s: State, h: History, n: nat)
    returns (s': State, h': History)
    requires Closed(c, runs) && (s, h) in runs && Calm(s) && s.main == LoopTop && c.op >= 1
    requires s.now <= s.lastLearnAt + c.learn && h.passed == 0
    ensures (s', h') in runs && Calm(s') && s'.main == LoopTop
    ensures s'.now == s.now + n && s'.lastLearnAt == s.lastLearnAt && h'.learned == h.learned
    ensures h'.passed == if s'.now > s.lastLearnAt + c.learn then s'.now - s.lastLearnAt - c.learn else 0
    decreases n
  {
    s', h' := s, h;
    if n > 0 {
      s', h' := ManyRounds(c, runs, s, h, n - 1);
      s', h' := OneRound(c, runs, s', h');
    }
  }

  /** Monitor is called at time 0 with a mail in the scan box. */
  const FIRST := State(0, Entry, 0, Crew(map[], map[], 0), Shutdown(false, false, Free, 0, false, StopNotCalled),
                       Closing(false, 0, 0, 0, 0, 0, 0), Session(false, None, None, map[], 0, HandlerIdle, false),
                       Server(1, false, [], false), Audit(0, 0, 0, 0, 0, 0, 0, 0, 0))

  lemma FirstSteps(c: Config, runs: Runs, h: History) returns (s: State)
    requires Closed(c, runs) && (FIRST, h) in runs && h == History(None, 0, 0, None)
    ensures (s, h) in runs && Calm(s) && s.main == PhaseEnter(OnceHam) && s.now == 0
  {
    var s1 := GateStep(FIRST).value;
    RanSilent(c, runs, FIRST, h, Go, s1);
    var s2 := GateStep(s1).value;
    RanSilent(c, runs, s1, h, Go, s2);
    s := GateStep(s2).value;
    RanSilent(c, runs, s2, h, Go, s);
  }

  lemma FirstRound(c: Config, runs: Runs, h0: History) returns (s: State, h: History)
    requires Closed(c, runs) && (FIRST, h0) in runs && h0 == History(None, 0, 0, None)
    ensures (s, h) in runs && Calm(s) && s.main == LoopTop && s.now == s.lastLearnAt == 0
    ensures h.learned == Some(0) && h.passed == 0
  {
    s := FirstSteps(c, runs, h0);
    s, h := PhasePasses(c, runs, s, h0, OnceHam, false);
    s, h := PhasePasses(c, runs, s, h, OnceSpam, false);
    s, h := PhasePasses(c, runs, s, h, OnceScan, false);
  }

  lemma FirstRan(c: Config)
    ensures Ran(c, FIRST, History(None, 0, 0, None))
  {
    assert Exec(c, FIRST, []) == Some(FIRST) && Trace(c, FIRST, []) == [];
  }

  /** For every configuration with an operation timeout and every time n: Monitor may run on without a
      learning round until n after the learn interval, when the timer was passed over n times. So
      without the term for these the bound of LearnsInTime would not hold, whatever the constant. */
  lemma LearningCanBePutOff(c: Config, n: nat) returns (s: State, h: History)
    requires c.op >= 1
    ensures Ran(c, s, h) && Counted(s.main)
    ensures h.learned.Some? && s.now == h.learned.value + c.learn + n && h.passed == n
  {
    var runs := iset s, h | Ran(c, s, h) :: (s, h);
    RanIsClosed(c);
    FirstRan(c);
    s, h := FirstRound(c, runs, History(None, 0, 0, None));
    s, h := ManyRounds(c, runs, s, h, c.learn + n);
  }
}
