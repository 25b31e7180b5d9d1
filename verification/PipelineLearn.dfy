/** A learning pass is all or nothing. */
module PipelineLearn {
  import opened Mailboxes
  import opened PipelineTraces
  import opened Wrappers

  /** The UIDs that were learned or skipped as malformed, in the order they were fetched. */
  function Processed(log: seq<Entry>): seq<nat> {
    if log == [] then []
    else
      var before := Processed(log[..|log| - 1]);
      match log[|log| - 1].cmd
      case FetchedMalformed(uid) => before + [uid]
      case Learned(uid) => before + [uid]
      case _ => before
  }

  /** No command changes a mailbox or a flag, and no new phase begins. */
  ghost predicate OnlyReads(log: seq<Entry>) {
    forall k :: 0 <= k < |log| ==>
      !log[k].cmd.Open? && !log[k].cmd.Move? && !log[k].cmd.MarkSeen? && !log[k].cmd.Upload?
  }

  /** The loop ended after the entries read, and then MarkSeen was issued if it is wanted. */
  ghost predicate ReadyToMove(cfg: Config, job: Job, log: seq<Entry>) {
    var n := |log|;
    if MarksSeen(cfg, job)
    then n >= 2 && log[n - 1].cmd.MarkSeen? && log[n - 1].cmd.uids == Processed(log)
         && log[n - 2].cmd.FetchOver? && OnlyReads(log[..n - 1])
    else n >= 1 && log[n - 1].cmd.FetchOver? && OnlyReads(log)
  }

  /** The only Move of the pass is its last command; its UIDs are those processed. */
  ghost predicate MovesLast(cfg: Config, job: Job, log: seq<Entry>, ok: bool) {
    var n := |log| - 1;
    && n >= 0 && log[n].cmd.Move? && log[n].cmd.uids == Processed(log[..n]) != []
    && log[n].cmd.dest == LearnDest(cfg, job) && log[n].cmd.ok == ok && ReadyToMove(cfg, job, log[..n])
  }

  ghost predicate PassInv(cfg: Config, job: Job, log: seq<Entry>, st: Stage) {
    LearnStage(st) && st.job == job && st.uids == Processed(log) &&
    match st
    case Learnt(_, _) => OnlyReads(log) && log != [] && log[|log| - 1].cmd.FetchOver?
    case Marked(_, _) => MarksSeen(cfg, job) && st.uids != [] && ReadyToMove(cfg, job, log)
    case LearnDone(_, _, ok) => MovesLast(cfg, job, log, ok)
    case _ => OnlyReads(log)
  }

  lemma PassStep(cfg: Config, job: Job, before: seq<Entry>, log: seq<Entry>, st: Stage, st': Stage)
    requires log != [] && before == log[..|log| - 1] && !log[|log| - 1].cmd.Open?
    requires PassInv(cfg, job, before, st) && NextLearn(cfg, st, log[|log| - 1].cmd) == Some(st')
    ensures PassInv(cfg, job, log, st')
  {
  }

  /** Before the Move there is at most the MarkSeen among the commands that change something. */
  lemma OnlyReadsBefore(cfg: Config, job: Job, log: seq<Entry>)
    requires ReadyToMove(cfg, job, log)
    ensures forall k :: 0 <= k < |log| ==> !log[k].cmd.Move?
    ensures forall k :: 0 <= k < |log| && log[k].cmd.MarkSeen? ==> k == |log| - 1 && MarksSeen(cfg, job)
    ensures MarksSeen(cfg, job) ==> log[|log| - 1].cmd.MarkSeen?
  {
    if MarksSeen(cfg, job) {
      var n := |log| - 1;
      assert forall k :: 0 <= k < n ==> log[k] == log[..n][k];
    }
  }

  /** A learning pass: at most one Move is issued, after the loop over the messages has ended and
      with the source box selected; its UIDs are exactly the learned and malformed ones in fetch
      order, and MarkSeen, if wanted, directly precedes it with the same list. Any other end of
      the pass, with or without an error, has issued no Move. */
  lemma {:induction false} LearnPass(cfg: Config, job: Job, r: Run, log: seq<Entry>)
    requires r.st == Learning(job, []) && r.w.selected == Some(SourceOf(cfg, job))
    requires Exec(cfg, r, log).Some? && SamePhase(log)
    ensures PassInv(cfg, job, log, Exec(cfg, r, log).value.st)
    ensures Exec(cfg, r, log).value.w.selected == Some(SourceOf(cfg, job))
    decreases |log|
  {
    if log != [] {
      var before, st := LastStage(cfg, r, log);
      LearnPass(cfg, job, r, before);
      PassStep(cfg, job, before, log, st, Exec(cfg, r, log).value.st);
    }
  }

  /** The same command by command: ham goes to the inbox, spam to the spam box; only spam is marked
      as seen, and only if this is configured. */
  ghost predicate CommandsAre(cfg: Config, job: Job, log: seq<Entry>) {
    && (forall k :: 0 <= k < |log| && log[k].cmd.Move? ==>
          k == |log| - 1 && log[k].cmd.dest == if job.HamJob? then cfg.inbox else cfg.spam)
    && (forall k :: 0 <= k < |log| && log[k].cmd.MarkSeen? ==> job.SpamJob? && cfg.markSeen && k >= |log| - 2)
    && (job.SpamJob? && cfg.markSeen && log != [] && log[|log| - 1].cmd.Move? ==>
          |log| >= 2 && log[|log| - 2].cmd.MarkSeen?)
  }

  lemma PassCommands(cfg: Config, job: Job, log: seq<Entry>, st: Stage)
    requires !job.ScanJob? && PassInv(cfg, job, log, st)
    ensures CommandsAre(cfg, job, log)
  {
    if st.LearnDone? {
      var n := |log| - 1;
      OnlyReadsBefore(cfg, job, log[..n]);
      assert forall k :: 0 <= k < n ==> log[k] == log[..n][k];
    } else if st.Marked? {
      OnlyReadsBefore(cfg, job, log);
    }
  }

  lemma {:induction false} LearnCommands(cfg: Config, job: Job, r: Run, log: seq<Entry>)
    requires !job.ScanJob? && r.st == Learning(job, []) && r.w.selected == Some(SourceOf(cfg, job))
    requires Exec(cfg, r, log).Some? && SamePhase(log)
    ensures r.w.selected == Some(if job.HamJob? then cfg.ham else cfg.undetected)
    ensures CommandsAre(cfg, job, log)
  {
    LearnPass(cfg, job, r, log);
    PassCommands(cfg, job, log, Exec(cfg, r, log).value.st);
  }

  // ---- what it does to the mailboxes ---------------------------------------------------------

  /** What the changes of other clients alone make of the mailboxes. */
  function OthersAlone(mails: Mails, log: seq<Entry>): Mails {
    if log == [] then mails
    else
      var o := log[|log| - 1].others;
      (OthersAlone(mails, log[..|log| - 1]) - o.removed) + o.added
  }

  /** No other client removes mails from the box. */
  ghost predicate NobodyRemoves(box: string, log: seq<Entry>) {
    forall k, s :: 0 <= k < |log| && s in log[k].others.removed ==> s.box != box
  }

  /** All processed mails lie in the source box. */
  ghost predicate InSource(mails: Mails, src: string, st: Stage) {
    && LearnStage(st)
    && (forall u :: u in st.uids ==> Slot(src, u) in mails)
    && (st.LearnGot? ==> Slot(src, st.uid) in mails)
  }

  lemma UntouchedStep(cfg: Config, src: string, w: World, st: Stage, c: Command)
    requires LearnStage(st) && w.selected == Some(src) && !st.LearnDone?
    requires !c.Open? && Legal(w, c) && NextLearn(cfg, st, c).Some? && !NextLearn(cfg, st, c).value.LearnDone?
    ensures Effect(cfg, w, c).mails == w.mails
    ensures InSource(w.mails, src, st) ==> InSource(w.mails, src, NextLearn(cfg, st, c).value)
  {
  }

  lemma OthersKeepSource(scan: string, src: string, w: World, o: Others, st: Stage)
    requires LegalOthers(scan, w, o) && InSource(w.mails, src, st)
    requires forall s :: s in o.removed ==> s.box != src
    ensures InSource(AfterOthers(w, o).mails, src, st)
  {
  }

  /** Before the Move the pass itself changes no mailbox. */
  lemma {:induction false} SourceUntouched(cfg: Config, job: Job, r: Run, log: seq<Entry>)
    requires r.st == Learning(job, []) && r.w.selected == Some(SourceOf(cfg, job))
    requires Exec(cfg, r, log).Some? && SamePhase(log) && !Exec(cfg, r, log).value.st.LearnDone?
    ensures Exec(cfg, r, log).value.w.mails == OthersAlone(r.w.mails, log)
    ensures NobodyRemoves(SourceOf(cfg, job), log) ==>
              InSource(OthersAlone(r.w.mails, log), SourceOf(cfg, job), Exec(cfg, r, log).value.st)
    decreases |log|
  {
    if log != [] {
      var n, src := |log| - 1, SourceOf(cfg, job);
      var r' := Exec(cfg, r, log[..n]).value;
      LearnPass(cfg, job, r, log[..n]);
      SourceUntouched(cfg, job, r, log[..n]);
      UntouchedStep(cfg, src, AfterOthers(r'.w, log[n].others), r'.st, log[n].cmd);
      if NobodyRemoves(src, log) {
        assert NobodyRemoves(src, log[..n]);
        assert forall s :: s in log[n].others.removed ==> s.box != src;
        OthersKeepSource(cfg.scan, src, r'.w, log[n].others, r'.st);
      }
    }
  }

  /** Every given mail that is in the source before is in the destination after, and not in the
      source any more. */
  ghost predicate Transferred(cfg: Config, job: Job, mails: Mails, mails': Mails, uids: seq<nat>) {
    forall u :: u in uids && Slot(SourceOf(cfg, job), u) in mails ==>
      var s := Slot(SourceOf(cfg, job), u);
      InBox(mails', LearnDest(cfg, job), mails[s]) && (SourceOf(cfg, job) != LearnDest(cfg, job) ==> s !in mails')
  }

  /** Only mails of the source with the given UIDs have left their slots. */
  ghost predicate OnlyTheseMove(src: string, mails: Mails, mails': Mails, uids: seq<nat>) {
    forall s :: s in mails && !(s.box == src && s.uid in uids) ==> s in mails' && mails'[s] == mails[s]
  }

  lemma MoveTransfers(cfg: Config, job: Job, w: World, c: Command, uids: seq<nat>)
    requires w.selected == Some(SourceOf(cfg, job)) && c.Move? && Legal(w, c)
    requires c.uids == uids && c.dest == LearnDest(cfg, job)
    ensures OnlyTheseMove(SourceOf(cfg, job), w.mails, Effect(cfg, w, c).mails, uids)
    ensures c.ok ==> Transferred(cfg, job, w.mails, Effect(cfg, w, c).mails, uids)
  {
    var src, w' := SourceOf(cfg, job), Effect(cfg, w, c);
    forall s | s in w.mails && !(s.box == src && s.uid in uids)
      ensures s in w'.mails && w'.mails[s] == w.mails[s]
    {
      if c.placed != map[] {
        Stays(w.mails, src, c.dest, c.placed, s);
      }
    }
    if c.ok {
      forall u | u in uids && Slot(src, u) in w.mails
        ensures InBox(w'.mails, c.dest, w.mails[Slot(src, u)])
        ensures src != c.dest ==> Slot(src, u) !in w'.mails
      {
        var v := Arrives(w.mails, src, c.dest, c.placed, u);
        assert Slot(src, u) in Vacated(src, c.placed);
      }
    }
  }

  /** The last entry of a pass that moved: what the others do in it, and the Move itself. */
  lemma MoveStep(cfg: Config, job: Job, b: Run, e: Entry, uids: seq<nat>, r': Run)
    requires Do(cfg, b, e) == Some(r') && e.cmd.Move? && e.cmd.uids == uids && e.cmd.dest == LearnDest(cfg, job)
    requires b.w.selected == Some(SourceOf(cfg, job)) && LearnStage(b.st) && b.st.uids == uids && r'.st.LearnDone?
    ensures var mails, src := AfterOthers(b.w, e.others).mails, SourceOf(cfg, job);
            && OnlyTheseMove(src, mails, r'.w.mails, uids)
            && (r'.st.ok ==> Transferred(cfg, job, mails, r'.w.mails, uids))
            && (InSource(b.w.mails, src, b.st) && (forall s :: s in e.others.removed ==> s.box != src) ==>
                  forall u :: u in uids ==> Slot(src, u) in mails)
  {
    var src := SourceOf(cfg, job);
    MoveTransfers(cfg, job, AfterOthers(b.w, e.others), e.cmd, uids);
    if InSource(b.w.mails, src, b.st) && (forall s :: s in e.others.removed ==> s.box != src) {
      OthersKeepSource(cfg.scan, src, b.w, e.others, b.st);
    }
  }

  lemma {:induction false} LearnMoved(cfg: Config, job: Job, r: Run, log: seq<Entry>, before: seq<Entry>, b: Run)
    requires r.st == Learning(job, []) && r.w.selected == Some(SourceOf(cfg, job)) && SamePhase(log)
    requires log != [] && before == log[..|log| - 1] && Exec(cfg, r, before) == Some(b)
    requires Exec(cfg, r, log).Some? && Exec(cfg, r, log).value.st.LearnDone?
    ensures log[|log| - 1].cmd.Move? && log[|log| - 1].cmd.uids == Processed(log) == Processed(before) == b.st.uids
    ensures LearnStage(b.st) && !b.st.LearnDone? && b.w.selected == Some(SourceOf(cfg, job))
    ensures log[|log| - 1].cmd.dest == LearnDest(cfg, job) && Do(cfg, b, log[|log| - 1]) == Exec(cfg, r, log)
  {
    LearnPass(cfg, job, r, log);
    LearnPass(cfg, job, r, before);
  }

  /** What a learning pass made of the mailboxes the others leave. */
  ghost predicate AllOrNothing(cfg: Config, job: Job, mails: Mails, r': Run, uids: seq<nat>) {
    var src := SourceOf(cfg, job);
    && LearnStage(r'.st) && r'.st.uids == uids
    && (!r'.st.LearnDone? ==> r'.w.mails == mails)
    && OnlyTheseMove(src, mails, r'.w.mails, uids)
    && (r'.st.LearnDone? && r'.st.ok ==> Transferred(cfg, job, mails, r'.w.mails, uids))
  }

  /** All or nothing, whatever other clients do meanwhile. Without a Move the mailboxes are what
      the others alone make of them. With it only processed mails of the source may besides have
      left their slots, and after its success those still there are in the destination and have
      left the source; if nobody else removes mails from the source these are all processed ones. */
  lemma {:induction false} LearnAllOrNothing(cfg: Config, job: Job, r: Run, log: seq<Entry>)
    requires r.st == Learning(job, []) && r.w.selected == Some(SourceOf(cfg, job))
    requires Exec(cfg, r, log).Some? && SamePhase(log)
    ensures AllOrNothing(cfg, job, OthersAlone(r.w.mails, log), Exec(cfg, r, log).value, Processed(log))
    ensures NobodyRemoves(SourceOf(cfg, job), log) ==>
              forall u :: u in Processed(log) ==> Slot(SourceOf(cfg, job), u) in OthersAlone(r.w.mails, log)
  {
    var src := SourceOf(cfg, job);
    LearnPass(cfg, job, r, log);
    if !Exec(cfg, r, log).value.st.LearnDone? {
      SourceUntouched(cfg, job, r, log);
    } else {
      var n := |log| - 1;
      var before := log[..n];
      var b := Exec(cfg, r, before).value;
      LearnMoved(cfg, job, r, log, before, b);
      SourceUntouched(cfg, job, r, before);
      MoveStep(cfg, job, b, log[n], Processed(log), Exec(cfg, r, log).value);
      if NobodyRemoves(src, log) {
        assert NobodyRemoves(src, before);
        assert forall s :: s in log[n].others.removed ==> s.box != src;
      }
    }
  }
}
