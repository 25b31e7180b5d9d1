/** Safety over whole runs: where the originals are, and what is uploaded in their place. */
module PipelineSafety {
  import opened Mailboxes
  import opened PipelineInvariant
  import opened PipelineTraces
  import opened ScanRewrite
  import opened Wrappers

  // ---- originals stay in the scan box, the backup box or, if malformed, the inbox ----------

  predicate AtHome(cfg: Config, box: string, item: Item) {
    item.kind.Original? ==> box == cfg.scan || box == cfg.backup || (box == cfg.inbox && Malformed(item))
  }

  ghost predicate Placed(cfg: Config, mails: Mails) {
    forall s :: s in mails ==> AtHome(cfg, s.box, mails[s])
  }

  /** Learning does not take originals away: neither the backup box nor the inbox is learned
      from, or the mails end up where originals may be. */
  predicate LearningLeavesOriginals(cfg: Config) {
    && cfg.ham != cfg.backup
    && (cfg.undetected == cfg.backup ==> cfg.spam == cfg.backup || cfg.spam == cfg.scan)
    && (cfg.undetected == cfg.inbox != "" ==> cfg.spam == cfg.inbox || cfg.spam == cfg.backup || cfg.spam == cfg.scan)
  }

  lemma LearnDestIsHome(cfg: Config, job: Job, item: Item)
    requires Validate(cfg) && LearningLeavesOriginals(cfg) && !job.ScanJob? && Enabled(cfg, job)
    requires AtHome(cfg, SourceOf(cfg, job), item)
    ensures AtHome(cfg, LearnDest(cfg, job), item)
  {
  }

  /** The mails the client moves are at home where they go. */
  lemma MovedMailIsHome(cfg: Config, w: World, st: Stage, c: Command, u: nat)
    requires Validate(cfg) && LearningLeavesOriginals(cfg)
    requires StageInv(cfg, w, st) && c.Move? && NextStage(cfg, st, c).Some?
    requires u in c.uids && w.selected.Some? && Slot(w.selected.value, u) in w.mails
    requires Placed(cfg, w.mails)
    ensures AtHome(cfg, c.dest, w.mails[Slot(w.selected.value, u)])
  {
    if LearnStage(st) {
      LearnDestIsHome(cfg, st.job, w.mails[Slot(w.selected.value, u)]);
    }
  }

  lemma MoveKeepsPlaced(cfg: Config, w: World, st: Stage, c: Command)
    requires Validate(cfg) && LearningLeavesOriginals(cfg)
    requires StageInv(cfg, w, st) && Legal(w, c) && c.Move? && c.placed != map[] && NextStage(cfg, st, c).Some?
    requires Placed(cfg, w.mails)
    ensures Placed(cfg, AfterMove(w.mails, w.selected.value, c.dest, c.placed))
  {
    var src := w.selected.value;
    var mails' := AfterMove(w.mails, src, c.dest, c.placed);
    forall s | s in mails'
      ensures AtHome(cfg, s.box, mails'[s])
    {
      MovedFrom(w.mails, src, c.dest, c.placed, s);
      if s.box == c.dest && s.uid in c.placed {
        MovedMailIsHome(cfg, w, st, c, c.placed[s.uid]);
      }
    }
  }

  lemma OthersKeepPlaced(cfg: Config, w: World, o: Others)
    requires Placed(cfg, w.mails) && LegalOthers(cfg.scan, w, o)
    ensures Placed(cfg, AfterOthers(w, o).mails)
  {
  }

  lemma CommandKeepsPlaced(cfg: Config, w: World, st: Stage, c: Command)
    requires Validate(cfg) && LearningLeavesOriginals(cfg)
    requires StageInv(cfg, w, st) && Legal(w, c) && NextStage(cfg, st, c).Some? && Placed(cfg, w.mails)
    ensures Placed(cfg, Effect(cfg, w, c).mails)
  {
    if c.Move? && c.placed != map[] {
      MoveKeepsPlaced(cfg, w, st, c);
    }
  }

  lemma StepKeepsPlaced(cfg: Config, r: Run, e: Entry)
    requires Validate(cfg) && LearningLeavesOriginals(cfg)
    requires StageInv(cfg, r.w, r.st) && Do(cfg, r, e).Some? && Placed(cfg, r.w.mails)
    ensures Placed(cfg, Do(cfg, r, e).value.w.mails)
  {
    OthersKeepStage(cfg, r.w, e.others, r.st);
    OthersKeepPlaced(cfg, r.w, e.others);
    CommandKeepsPlaced(cfg, AfterOthers(r.w, e.others), r.st, e.cmd);
  }

  lemma {:induction false} PlacedAlways(cfg: Config, r0: Run, log: seq<Entry>)
    requires Validate(cfg) && LearningLeavesOriginals(cfg)
    requires Start(cfg, r0) && Exec(cfg, r0, log).Some?
    ensures Placed(cfg, Exec(cfg, r0, log).value.w.mails)
    decreases |log|
  {
    if log != [] {
      var n := |log| - 1;
      InvAlways(cfg, r0, log[..n]);
      PlacedAlways(cfg, r0, log[..n]);
      StepKeepsPlaced(cfg, Exec(cfg, r0, log[..n]).value, log[n]);
    }
  }

  /** For every sequence of phases, failures and cancellations: each original that was delivered
      is in exactly one slot, and that is in the scan box, the backup box or, for a malformed
      mail, the inbox. */
  lemma EveryOriginalHasOneHome(cfg: Config, r: Run, id: nat)
    requires Validate(cfg) && LearningLeavesOriginals(cfg) && Reached(cfg, r) && id in r.w.delivered
    ensures exists s :: IsHome(r.w.mails, s, id) && AtHome(cfg, s.box, r.w.mails[s])
    ensures forall s, t :: IsHome(r.w.mails, s, id) && IsHome(r.w.mails, t, id) ==> s == t
  {
    var r0, log :| Start(cfg, r0) && Exec(cfg, r0, log) == Some(r);
    InvAlways(cfg, r0, log);
    PlacedAlways(cfg, r0, log);
    var s :| IsHome(r.w.mails, s, id);
    assert AtHome(cfg, s.box, r.w.mails[s]);
  }

  // ---- at most one upload for each original ---------------------------------------------------

  predicate ScanBoxApart(cfg: Config) {
    cfg.scan != cfg.backup && cfg.scan != cfg.spam
  }

  /** The scan box holds originals only, and none for which an upload was attempted. */
  ghost predicate ScanBoxFresh(cfg: Config, w: World) {
    forall s :: s in w.mails && s.box == cfg.scan ==> w.mails[s].kind.Original? && w.attempts[w.mails[s].kind.id] == 0
  }

  ghost predicate AttemptedOnce(w: World) {
    forall id: nat :: w.attempts[id] <= 1 && (w.attempts[id] > 0 ==> id in w.delivered)
  }

  /** The original of m left the scan box and no upload was attempted for it. */
  ghost predicate Departed(cfg: Config, w: World, m: Scan) {
    && m.item.kind.Original? && w.attempts[m.item.kind.id] == 0 && m.item.kind.id in w.delivered
    && forall s :: s in w.mails && s.box == cfg.scan ==> w.mails[s].kind != m.item.kind
  }

  ghost predicate DealtWith(w: World, b: Batch, n: nat) {
    forall k :: 0 <= k < n && k < |b.scans| ==>
      b.scans[k].item.kind.Original? && w.attempts[b.scans[k].item.kind.id] == 1
  }

  ghost predicate OnceStage(cfg: Config, w: World, st: Stage) {
    match st
    case Replacing(b, n, failed) => !failed ==> DealtWith(w, b, n)
    case Uploading(b, n, failed) => n < |b.scans| && Departed(cfg, w, b.scans[n]) && (!failed ==> DealtWith(w, b, n))
    case ScanDone(b, failed) => !failed ==> DealtWith(w, b, |b.scans|)
    case _ => true
  }

  ghost predicate OnceInv(cfg: Config, r: Run) {
    ScanBoxFresh(cfg, r.w) && AttemptedOnce(r.w) && OnceStage(cfg, r.w, r.st)
  }

  lemma OthersKeepOnce(cfg: Config, r: Run, o: Others)
    requires Inv(cfg, r) && OnceInv(cfg, r) && LegalOthers(cfg.scan, r.w, o)
    ensures OnceInv(cfg, Run(AfterOthers(r.w, o), r.st))
  {
  }

  lemma MoveLeavesScanBoxFresh(cfg: Config, w: World, uids: seq<nat>, dest: string, placed: map<nat, nat>, ok: bool)
    requires LegalMove(w, uids, dest, placed, ok) && placed != map[] && dest != cfg.scan
    requires ScanBoxFresh(cfg, w)
    ensures ScanBoxFresh(cfg, w.(mails := AfterMove(w.mails, w.selected.value, dest, placed)))
  {
    forall s | s in AfterMove(w.mails, w.selected.value, dest, placed) && s.box == cfg.scan
      ensures s in w.mails && AfterMove(w.mails, w.selected.value, dest, placed)[s] == w.mails[s]
    {
      MovedFrom(w.mails, w.selected.value, dest, placed, s);
    }
  }

  /** An original that was moved to the backup box is not in the scan box any more. */
  lemma MovedIsDeparted(cfg: Config, w: World, w': World, m: Scan)
    requires ScanBoxApart(cfg) && ScanBoxFresh(cfg, w) && Conserved(w) && Holds(w.mails, cfg.scan, m.uid, m.item)
    requires w'.attempts == w.attempts && w'.delivered == w.delivered
    requires OneHome(w'.mails) && InBox(w'.mails, cfg.backup, m.item)
    ensures Departed(cfg, w', m)
  {
    var u :| Holds(w'.mails, cfg.backup, u, m.item);
    assert Slot(cfg.scan, m.uid) in w.mails;
    assert w'.mails[Slot(cfg.backup, u)].kind == m.item.kind;
  }

  lemma DestApart(cfg: Config, st: Stage, c: Command)
    requires Validate(cfg) && ScanBoxApart(cfg) && NextStage(cfg, st, c).Some?
    ensures c.Move? || c.Upload? ==> c.dest != cfg.scan
  {
  }

  lemma MoveNextKeepsOnce(cfg: Config, w: World, w': World, b: Batch, n: nat, failed: bool, ok: bool)
    requires ScanBoxApart(cfg) && n < |b.scans| && Holds(w.mails, cfg.scan, b.scans[n].uid, b.scans[n].item)
    requires Conserved(w) && OneHome(w'.mails) && (ok ==> InBox(w'.mails, cfg.backup, b.scans[n].item))
    requires w'.attempts == w.attempts && w'.delivered == w.delivered
    requires ScanBoxFresh(cfg, w) && OnceStage(cfg, w, Replacing(b, n, failed))
    ensures OnceStage(cfg, w', if ok then Uploading(b, n, failed) else Replacing(b, n + 1, true))
  {
    if ok {
      assert w.mails[Slot(cfg.scan, b.scans[n].uid)] == b.scans[n].item;
      MovedIsDeparted(cfg, w, w', b.scans[n]);
    }
  }

  lemma MoveLeavesFacts(cfg: Config, w: World, st: Stage, c: Command)
    requires Validate(cfg) && ScanBoxApart(cfg) && ScanBoxFresh(cfg, w) && AttemptedOnce(w)
    requires c.Move? && Legal(w, c) && NextStage(cfg, st, c).Some?
    ensures var w' := Effect(cfg, w, c);
            w'.attempts == w.attempts && w'.delivered == w.delivered && ScanBoxFresh(cfg, w') && AttemptedOnce(w')
  {
    DestApart(cfg, st, c);
    if c.placed != map[] {
      MoveLeavesScanBoxFresh(cfg, w, c.uids, c.dest, c.placed, c.ok);
    }
  }

  lemma MoveStage(cfg: Config, st: Stage, c: Command)
    requires c.Move? && NextStage(cfg, st, c).Some?
    ensures var st' := NextStage(cfg, st, c).value;
            if st.Replacing? && st.next < |st.b.scans|
            then st' == if c.ok then Uploading(st.b, st.next, st.failed) else Replacing(st.b, st.next + 1, true)
            else
              st'.LearnDone?
              || (st.Replacing? && st.next == |st.b.scans| && st' == ScanDone(st.b, st.failed || !c.ok))
  {
  }

  lemma MoveKeepsOnceStage(cfg: Config, w: World, st: Stage, c: Command)
    requires Validate(cfg) && ScanBoxApart(cfg) && Inv(cfg, Run(w, st)) && OnceInv(cfg, Run(w, st))
    requires c.Move? && Legal(w, c) && NextStage(cfg, st, c).Some?
    requires st.Replacing? && st.next < |st.b.scans|
    ensures OnceStage(cfg, Effect(cfg, w, c), NextStage(cfg, st, c).value)
  {
    var w' := Effect(cfg, w, c);
    MoveStage(cfg, st, c);
    MoveLeavesFacts(cfg, w, st, c);
    CommandConserves(cfg, w, st, c);
    MovedStage(cfg, w, st, c);
    assert c.ok ==> StageInv(cfg, w', Uploading(st.b, st.next, st.failed));
    MoveNextKeepsOnce(cfg, w, w', st.b, st.next, st.failed, c.ok);
  }

  lemma MoveKeepsOnce(cfg: Config, w: World, st: Stage, c: Command)
    requires Validate(cfg) && ScanBoxApart(cfg) && Inv(cfg, Run(w, st)) && OnceInv(cfg, Run(w, st))
    requires c.Move? && Legal(w, c) && NextStage(cfg, st, c).Some?
    ensures OnceInv(cfg, Run(Effect(cfg, w, c), NextStage(cfg, st, c).value))
  {
    MoveLeavesFacts(cfg, w, st, c);
    MoveStage(cfg, st, c);
    if st.Replacing? && st.next < |st.b.scans| {
      MoveKeepsOnceStage(cfg, w, st, c);
    }
  }

  lemma UploadedOnceMore(cfg: Config, w: World, w': World, b: Batch, n: nat, failed: bool, ok: bool)
    requires OnceStage(cfg, w, Uploading(b, n, failed)) && AttemptedOnce(w) && ScanBoxFresh(cfg, w)
    requires w'.attempts == w.attempts + multiset{b.scans[n].item.kind.id} && w'.delivered == w.delivered
    requires forall s :: s in w'.mails && s.box == cfg.scan ==> s in w.mails && w'.mails[s] == w.mails[s]
    ensures AttemptedOnce(w') && ScanBoxFresh(cfg, w')
    ensures OnceStage(cfg, w', Replacing(b, n + 1, failed || !ok))
  {
  }

  lemma UploadEffect(cfg: Config, w: World, c: Command, id: nat)
    requires c.Upload? && Legal(w, c) && c.dest != cfg.scan && c.copy.kind == CopyOf(id)
    ensures var w' := Effect(cfg, w, c);
            && w'.attempts == w.attempts + multiset{id} && w'.delivered == w.delivered
            && forall s :: s in w'.mails && s.box == cfg.scan ==> s in w.mails && w'.mails[s] == w.mails[s]
  {
  }

  lemma UploadStep(cfg: Config, st: Stage, c: Command)
    requires c.Upload? && NextStage(cfg, st, c).Some?
    ensures st.Uploading? && st.next < |st.b.scans|
    ensures NextStage(cfg, st, c) == Some(Replacing(st.b, st.next + 1, st.failed || !c.ok))
    ensures var m := st.b.scans[st.next];
            c.copy.kind == CopyKind(m.item.kind) && c.copy.body == Some(m.rw.copy)
            && c.dest == if m.result.score >= cfg.threshold then cfg.spam else cfg.inbox
  {
  }

  lemma UploadKeepsOnce(cfg: Config, w: World, st: Stage, c: Command)
    requires Validate(cfg) && ScanBoxApart(cfg) && OnceInv(cfg, Run(w, st))
    requires c.Upload? && Legal(w, c) && NextStage(cfg, st, c).Some?
    ensures OnceInv(cfg, Run(Effect(cfg, w, c), NextStage(cfg, st, c).value))
  {
    DestApart(cfg, st, c);
    UploadStep(cfg, st, c);
    UploadEffect(cfg, w, c, st.b.scans[st.next].item.kind.id);
    UploadedOnceMore(cfg, w, Effect(cfg, w, c), st.b, st.next, st.failed, c.ok);
  }

  lemma OthersCommandsKeepOnce(cfg: Config, w: World, st: Stage, c: Command)
    requires OnceInv(cfg, Run(w, st)) && !c.Move? && !c.Upload? && Legal(w, c) && NextStage(cfg, st, c).Some?
    ensures OnceInv(cfg, Run(Effect(cfg, w, c), NextStage(cfg, st, c).value))
  {
  }

  lemma StepKeepsOnce(cfg: Config, r: Run, e: Entry)
    requires Validate(cfg) && ScanBoxApart(cfg) && Inv(cfg, r) && OnceInv(cfg, r) && Do(cfg, r, e).Some?
    ensures OnceInv(cfg, Do(cfg, r, e).value)
    ensures OnceInv(cfg, Run(AfterOthers(r.w, e.others), r.st))
  {
    var w := AfterOthers(r.w, e.others);
    OthersKeepOnce(cfg, r, e.others);
    StepKeepsInv(cfg, r, e);
    if e.cmd.Move? {
      MoveKeepsOnce(cfg, w, r.st, e.cmd);
    } else if e.cmd.Upload? {
      UploadKeepsOnce(cfg, w, r.st, e.cmd);
    } else {
      OthersCommandsKeepOnce(cfg, w, r.st, e.cmd);
    }
  }

  lemma {:induction false} OnceAlways(cfg: Config, r0: Run, log: seq<Entry>)
    requires Validate(cfg) && ScanBoxApart(cfg) && Start(cfg, r0) && Exec(cfg, r0, log).Some?
    ensures OnceInv(cfg, Exec(cfg, r0, log).value)
    decreases |log|
  {
    if log != [] {
      var n := |log| - 1;
      InvAlways(cfg, r0, log[..n]);
      OnceAlways(cfg, r0, log[..n]);
      StepKeepsOnce(cfg, Exec(cfg, r0, log[..n]).value, log[n]);
    }
  }

  /** Over a whole run at most one upload is attempted for each original. */
  lemma UploadedAtMostOnce(cfg: Config, r: Run, id: nat)
    requires Validate(cfg) && ScanBoxApart(cfg) && Reached(cfg, r)
    ensures r.w.attempts[id] <= 1
  {
    var r0, log :| Start(cfg, r0) && Exec(cfg, r0, log) == Some(r);
    OnceAlways(cfg, r0, log);
  }

  lemma UploadingStep(cfg: Config, st: Stage, c: Command)
    requires NextStage(cfg, st, c).Some? && NextStage(cfg, st, c).value.Uploading?
    ensures var st' := NextStage(cfg, st, c).value;
            && c.Move? && c.ok && c.dest == cfg.backup
            && st'.next < |st'.b.scans| && c.uids == [st'.b.scans[st'.next].uid]
  {
  }

  lemma UploadingFollowsMove(cfg: Config, r0: Run, log: seq<Entry>)
    requires Start(cfg, r0) && Exec(cfg, r0, log).Some? && Exec(cfg, r0, log).value.st.Uploading?
    ensures var st := Exec(cfg, r0, log).value.st;
            && log != [] && log[|log| - 1].cmd.Move? && log[|log| - 1].cmd.ok && st.next < |st.b.scans|
            && log[|log| - 1].cmd.uids == [st.b.scans[st.next].uid] && log[|log| - 1].cmd.dest == cfg.backup
  {
    var r := Exec(cfg, r0, log[..|log| - 1]).value;
    UploadingStep(cfg, r.st, log[|log| - 1].cmd);
  }

  /** Backup first: an upload directly follows a successful move of its original, alone, to the
      backup box, where the original still is; it is the first for that original, carries the
      rewrite of that very mail, and goes to spam exactly when the score reaches the threshold. */
  lemma BackupFirst(cfg: Config, r0: Run, log: seq<Entry>, e: Entry)
    requires Validate(cfg) && ScanBoxApart(cfg)
    requires Start(cfg, r0) && Exec(cfg, r0, log + [e]).Some? && e.cmd.Upload?
    ensures Exec(cfg, r0, log).Some? && Exec(cfg, r0, log).value.st.Uploading?
    ensures var r := Exec(cfg, r0, log).value;
            && r.st.next < |r.st.b.scans|
            && var m := r.st.b.scans[r.st.next];
            && m.item.kind.Original?
            && log != [] && log[|log| - 1].cmd.Move? && log[|log| - 1].cmd.ok
            && log[|log| - 1].cmd.uids == [m.uid] && log[|log| - 1].cmd.dest == cfg.backup
            && InBox(AfterOthers(r.w, e.others).mails, cfg.backup, m.item)
            && r.w.attempts[m.item.kind.id] == 0
            && RewriteOf(cfg.fmt, m.item, m.result, m.rw)
            && e.cmd.copy.kind == CopyOf(m.item.kind.id) && e.cmd.copy.body == Some(m.rw.copy)
            && e.cmd.dest == (if m.result.score >= cfg.threshold then cfg.spam else cfg.inbox)
  {
    ExecSnoc(cfg, r0, log, e);
    var r := Exec(cfg, r0, log).value;
    UploadStep(cfg, r.st, e.cmd);
    InvAlways(cfg, r0, log);
    OnceAlways(cfg, r0, log);
    StepKeepsInv(cfg, r, e);
    UploadingFollowsMove(cfg, r0, log);
  }

  /** When processScanBox ends without an error, an upload was made for each scanned mail. */
  lemma NoErrorMeansAllUploaded(cfg: Config, r: Run)
    requires Validate(cfg) && ScanBoxApart(cfg) && Reached(cfg, r)
    requires r.st.ScanDone? || (r.st.Replacing? && r.st.next == |r.st.b.scans|)
    requires !r.st.failed
    ensures forall m :: m in r.st.b.scans ==> m.item.kind.Original? && r.w.attempts[m.item.kind.id] == 1
  {
    var r0, log :| Start(cfg, r0) && Exec(cfg, r0, log) == Some(r);
    OnceAlways(cfg, r0, log);
  }
}
