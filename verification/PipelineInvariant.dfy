/** What every step of the pipeline keeps: no original is lost or doubled, and the client's
    picture of the scan box is right. */
module PipelineInvariant {
  import opened Mailboxes
  import opened PipelineTraces
  import opened ScanRewrite
  import opened Wrappers

  // ---- conservation of originals ------------------------------------------------------

  ghost predicate OneHome(mails: Mails) {
    forall s, t :: s in mails && t in mails && mails[s].kind == mails[t].kind && mails[s].kind.Original? ==> s == t
  }

  ghost predicate IsHome(mails: Mails, s: Slot, id: nat) {
    s in mails && mails[s].kind == Original(id)
  }

  ghost predicate HasHome(mails: Mails, id: nat) {
    exists s :: IsHome(mails, s, id)
  }

  /** Every original that was delivered is in exactly one slot. */
  ghost predicate Conserved(w: World) {
    && OneHome(w.mails)
    && (forall s :: s in w.mails && w.mails[s].kind.Original? ==> w.mails[s].kind.id in w.delivered)
    && (forall id :: id in w.delivered ==> HasHome(w.mails, id))
  }

  lemma OthersConserve(scan: string, w: World, o: Others)
    requires Conserved(w) && LegalOthers(scan, w, o)
    ensures Conserved(AfterOthers(w, o))
  {
    var w' := AfterOthers(w, o);
    forall id | id in w'.delivered
      ensures HasHome(w'.mails, id)
    {
      if id in w.delivered {
        var s :| IsHome(w.mails, s, id);
        assert IsHome(w'.mails, s, id);
      } else {
        var s :| s in o.added && o.added[s].kind == Original(id);
        assert IsHome(w'.mails, s, id);
      }
    }
  }

  lemma MoveConserves(w: World, uids: seq<nat>, dest: string, placed: map<nat, nat>, ok: bool)
    requires Conserved(w) && LegalMove(w, uids, dest, placed, ok) && placed != map[]
    ensures Conserved(w.(mails := AfterMove(w.mails, w.selected.value, dest, placed)))
  {
    var src := w.selected.value;
    var mails' := AfterMove(w.mails, src, dest, placed);
    forall s, t | s in mails' && t in mails' && mails'[s].kind == mails'[t].kind && mails'[s].kind.Original?
      ensures s == t
    {
      MovedFrom(w.mails, src, dest, placed, s);
      MovedFrom(w.mails, src, dest, placed, t);
      CameFromApart(w.mails, src, dest, placed, s, t);
    }
    forall s | s in mails' && mails'[s].kind.Original?
      ensures mails'[s].kind.id in w.delivered
    {
      MovedFrom(w.mails, src, dest, placed, s);
    }
    forall id | id in w.delivered
      ensures HasHome(mails', id)
    {
      var s :| IsHome(w.mails, s, id);
      if s.box == src && s.uid in placed.Values {
        var v := Arrives(w.mails, src, dest, placed, s.uid);
        assert IsHome(mails', Slot(dest, v), id);
      } else {
        Stays(w.mails, src, dest, placed, s);
        assert IsHome(mails', s, id);
      }
    }
  }

  lemma UploadConserves(w: World, dest: string, copy: Item, at: Option<nat>, ok: bool)
    requires Conserved(w) && LegalUpload(w, dest, at, ok) && !copy.kind.Original?
    ensures Conserved(AfterUpload(w, dest, copy, at))
  {
    var mails' := AfterUpload(w, dest, copy, at).mails;
    forall id | id in w.delivered
      ensures HasHome(mails', id)
    {
      var s :| IsHome(w.mails, s, id);
      assert IsHome(mails', s, id);
    }
  }

  lemma CommandConserves(cfg: Config, w: World, st: Stage, c: Command)
    requires Conserved(w) && Legal(w, c) && NextStage(cfg, st, c).Some?
    ensures Conserved(Effect(cfg, w, c))
  {
    match c
    case Move(uids, dest, placed, ok) => if placed != map[] { MoveConserves(w, uids, dest, placed, ok); }
    case Upload(dest, copy, at, ok) => UploadConserves(w, dest, copy, at, ok);
    case _ =>
  }

  // ---- the client's picture ----------------------------------------------------------------

  ghost predicate ScansHeld(cfg: Config, w: World, b: Batch, next: nat) {
    forall k :: next <= k < |b.scans| ==> Holds(w.mails, cfg.scan, b.scans[k].uid, b.scans[k].item)
  }

  ghost predicate MalformedHeld(cfg: Config, w: World, b: Batch) {
    forall u :: u in b.malformed ==> Slot(cfg.scan, u) in w.mails && Malformed(w.mails[Slot(cfg.scan, u)])
  }

  ghost predicate Rewritten(cfg: Config, b: Batch) {
    forall k :: 0 <= k < |b.scans| ==> RewriteOf(cfg.fmt, b.scans[k].item, b.scans[k].result, b.scans[k].rw)
  }

  /** The batch came from the current FETCH, each mail once. */
  ghost predicate FetchedOnce(w: World, b: Batch) {
    && (forall k :: 0 <= k < |b.scans| ==> b.scans[k].uid in w.fetched && b.scans[k].uid !in b.malformed)
    && (forall u :: u in b.malformed ==> u in w.fetched)
    && (forall j, k :: 0 <= j < k < |b.scans| ==> b.scans[j].uid != b.scans[k].uid)
  }

  /** The scans from next on and the malformed mails are where they were fetched. */
  ghost predicate BatchInv(cfg: Config, w: World, b: Batch, next: nat) {
    ScansHeld(cfg, w, b, next) && MalformedHeld(cfg, w, b) && Rewritten(cfg, b) && FetchedOnce(w, b)
  }

  ghost predicate StageInv(cfg: Config, w: World, st: Stage) {
    match st
    case Idle => true
    case Fetching(b) => w.selected == Some(cfg.scan) && BatchInv(cfg, w, b, 0)
    case Got(b, uid, item) =>
      && w.selected == Some(cfg.scan) && BatchInv(cfg, w, b, 0) && Holds(w.mails, cfg.scan, uid, item)
      && uid in w.fetched && (forall k :: 0 <= k < |b.scans| ==> b.scans[k].uid != uid) && uid !in b.malformed
    case Replacing(b, n, _) => w.selected == Some(cfg.scan) && BatchInv(cfg, w, b, n) && n <= |b.scans|
    case Uploading(b, n, _) =>
      && w.selected == Some(cfg.scan) && n < |b.scans| && BatchInv(cfg, w, b, n + 1)
      && (b.scans[n].item.kind.Original? ==> InBox(w.mails, cfg.backup, b.scans[n].item))
    case ScanDone(_, _) => true
    case _ => !st.job.ScanJob? && Enabled(cfg, st.job) && w.selected == Some(SourceOf(cfg, st.job))
  }

  /** The slots of the scan box, and those of originals, keep their mails. */
  ghost predicate Keeps(scan: string, mails: Mails, mails': Mails) {
    forall s :: s in mails && (s.box == scan || mails[s].kind.Original?) ==> s in mails' && mails'[s] == mails[s]
  }

  lemma KeepsBatch(cfg: Config, w: World, w': World, b: Batch, next: nat)
    requires BatchInv(cfg, w, b, next) && Keeps(cfg.scan, w.mails, w'.mails) && w'.fetched == w.fetched
    ensures BatchInv(cfg, w', b, next)
  {
  }

  lemma KeepsStage(cfg: Config, w: World, w': World, st: Stage)
    requires StageInv(cfg, w, st) && Keeps(cfg.scan, w.mails, w'.mails)
    requires w'.selected == w.selected && w'.fetched == w.fetched
    ensures StageInv(cfg, w', st)
  {
    match st
    case Fetching(b) => KeepsBatch(cfg, w, w', b, 0);
    case Got(b, _, _) => KeepsBatch(cfg, w, w', b, 0);
    case Replacing(b, n, _) => KeepsBatch(cfg, w, w', b, n);
    case Uploading(b, n, _) =>
      KeepsBatch(cfg, w, w', b, n + 1);
      if b.scans[n].item.kind.Original? {
        var u :| Holds(w.mails, cfg.backup, u, b.scans[n].item);
        assert Holds(w'.mails, cfg.backup, u, b.scans[n].item);
      }
    case _ =>
  }

  lemma OthersKeepStage(cfg: Config, w: World, o: Others, st: Stage)
    requires StageInv(cfg, w, st) && LegalOthers(cfg.scan, w, o)
    ensures StageInv(cfg, AfterOthers(w, o), st)
  {
    KeepsStage(cfg, w, AfterOthers(w, o), st);
  }

  lemma FetchedStage(cfg: Config, w: World, b: Batch, uid: nat, item: Item)
    requires StageInv(cfg, w, Fetching(b)) && Legal(w, Fetched(uid, item))
    ensures StageInv(cfg, Effect(cfg, w, Fetched(uid, item)), Got(b, uid, item))
  {
  }

  lemma MalformedStage(cfg: Config, w: World, b: Batch, uid: nat)
    requires StageInv(cfg, w, Fetching(b)) && Legal(w, FetchedMalformed(uid))
    ensures StageInv(cfg, Effect(cfg, w, FetchedMalformed(uid)), Fetching(b.(malformed := b.malformed + [uid])))
  {
  }

  lemma ScanAddsOne(w: World, b: Batch, b': Batch, m: Scan)
    requires FetchedOnce(w, b) && b' == b.(scans := b.scans + [m])
    requires m.uid in w.fetched && m.uid !in b.malformed && forall k :: 0 <= k < |b.scans| ==> b.scans[k].uid != m.uid
    ensures FetchedOnce(w, b')
  {
  }

  lemma ScannedStage(cfg: Config, w: World, b: Batch, m: Scan)
    requires StageInv(cfg, w, Got(b, m.uid, m.item)) && RewriteOf(cfg.fmt, m.item, m.result, m.rw)
    ensures StageInv(cfg, w, Fetching(b.(scans := b.scans + [m])))
  {
    var b' := b.(scans := b.scans + [m]);
    ScanAddsOne(w, b, b', m);
    assert ScansHeld(cfg, w, b', 0);
    assert Rewritten(cfg, b');
  }

  lemma FetchOverStage(cfg: Config, w: World, st: Stage)
    requires StageInv(cfg, w, st) && NextStage(cfg, st, FetchOver).Some?
    ensures StageInv(cfg, w, NextStage(cfg, st, FetchOver).value)
  {
  }

  /** Moving the next scan to the backup box leaves the later ones and the malformed mails. */
  lemma MoveNextKeepsBatch(cfg: Config, w: World, b: Batch, n: nat, placed: map<nat, nat>, ok: bool)
    requires w.selected == Some(cfg.scan) && n < |b.scans| && BatchInv(cfg, w, b, n)
    requires LegalMove(w, [b.scans[n].uid], cfg.backup, placed, ok) && placed != map[]
    ensures BatchInv(cfg, w.(mails := AfterMove(w.mails, cfg.scan, cfg.backup, placed)), b, n + 1)
  {
    var u := b.scans[n].uid;
    forall v | v in placed
      ensures placed[v] == u
    {
      assert placed[v] in [u];
    }
    forall s: Slot | s in w.mails && s != Slot(cfg.scan, u)
      ensures s in AfterMove(w.mails, cfg.scan, cfg.backup, placed)
              && AfterMove(w.mails, cfg.scan, cfg.backup, placed)[s] == w.mails[s]
    {
      Stays(w.mails, cfg.scan, cfg.backup, placed, s);
    }
  }

  lemma MovedStage(cfg: Config, w: World, st: Stage, c: Command)
    requires StageInv(cfg, w, st) && Legal(w, c) && c.Move? && NextStage(cfg, st, c).Some?
    ensures StageInv(cfg, Effect(cfg, w, c), NextStage(cfg, st, c).value)
  {
    if st.Replacing? && st.next < |st.b.scans| {
      var m := st.b.scans[st.next];
      if c.placed != map[] {
        MoveNextKeepsBatch(cfg, w, st.b, st.next, c.placed, c.ok);
      }
      if c.ok {
        assert m.uid in c.uids;
        MoveOnePutsItThere(w, cfg.scan, m.uid, m.item, cfg.backup, c.placed);
      }
    }
  }

  lemma UploadedStage(cfg: Config, w: World, st: Stage, c: Command)
    requires StageInv(cfg, w, st) && Legal(w, c) && c.Upload? && NextStage(cfg, st, c).Some?
    ensures StageInv(cfg, Effect(cfg, w, c), NextStage(cfg, st, c).value)
  {
    KeepsStage(cfg, w, Effect(cfg, w, c), st);
  }

  lemma LearnKeepsStage(cfg: Config, w: World, st: Stage, c: Command)
    requires StageInv(cfg, w, st) && Legal(w, c) && LearnStage(st) && !c.Open? && NextLearn(cfg, st, c).Some?
    ensures StageInv(cfg, Effect(cfg, w, c), NextLearn(cfg, st, c).value)
  {
  }

  lemma ScanKeepsStage(cfg: Config, w: World, st: Stage, c: Command)
    requires StageInv(cfg, w, st) && Legal(w, c) && !LearnStage(st) && !c.Open? && NextScan(cfg, st, c).Some?
    ensures StageInv(cfg, Effect(cfg, w, c), NextScan(cfg, st, c).value)
  {
    match c
    case Fetched(uid, item) => FetchedStage(cfg, w, st.b, uid, item);
    case FetchedMalformed(uid) => MalformedStage(cfg, w, st.b, uid);
    case Scanned(m) => ScannedStage(cfg, w, st.b, m);
    case FetchOver => FetchOverStage(cfg, w, st);
    case Move(_, _, _, _) => MovedStage(cfg, w, st, c);
    case Upload(_, _, _, _) => UploadedStage(cfg, w, st, c);
    case _ =>
  }

  lemma CommandKeepsStage(cfg: Config, w: World, st: Stage, c: Command)
    requires StageInv(cfg, w, st) && Legal(w, c) && NextStage(cfg, st, c).Some?
    ensures StageInv(cfg, Effect(cfg, w, c), NextStage(cfg, st, c).value)
  {
    if !c.Open? {
      if LearnStage(st) {
        LearnKeepsStage(cfg, w, st, c);
      } else {
        ScanKeepsStage(cfg, w, st, c);
      }
    }
  }

  ghost predicate Inv(cfg: Config, r: Run) {
    Conserved(r.w) && StageInv(cfg, r.w, r.st)
  }

  lemma StartInv(cfg: Config, r: Run)
    requires Start(cfg, r)
    ensures Inv(cfg, r)
  {
    forall id | id in r.w.delivered
      ensures HasHome(r.w.mails, id)
    {
      var s :| s in r.w.mails && r.w.mails[s].kind == Original(id);
      assert IsHome(r.w.mails, s, id);
    }
    forall s | s in r.w.mails && r.w.mails[s].kind.Original?
      ensures r.w.mails[s].kind.id in r.w.delivered
    {
      assert r.w.mails[s].kind == Original(r.w.mails[s].kind.id);
    }
  }

  lemma StepKeepsInv(cfg: Config, r: Run, e: Entry)
    requires Inv(cfg, r) && Do(cfg, r, e).Some?
    ensures Inv(cfg, Do(cfg, r, e).value)
    ensures Inv(cfg, Run(AfterOthers(r.w, e.others), r.st))
  {
    var w := AfterOthers(r.w, e.others);
    OthersConserve(cfg.scan, r.w, e.others);
    OthersKeepStage(cfg, r.w, e.others, r.st);
    CommandConserves(cfg, w, r.st, e.cmd);
    CommandKeepsStage(cfg, w, r.st, e.cmd);
  }

  lemma {:induction false} InvAlways(cfg: Config, r0: Run, log: seq<Entry>)
    requires Start(cfg, r0) && Exec(cfg, r0, log).Some?
    ensures Inv(cfg, Exec(cfg, r0, log).value)
    decreases |log|
  {
    if log == [] {
      StartInv(cfg, r0);
    } else {
      var n := |log| - 1;
      InvAlways(cfg, r0, log[..n]);
      StepKeepsInv(cfg, Exec(cfg, r0, log[..n]).value, log[n]);
    }
  }
}
