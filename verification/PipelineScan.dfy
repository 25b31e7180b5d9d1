/** Which mails a pass over the scan box deals with: the fetched ones up to the first that cannot be
    scanned or rewritten. */
module PipelineScan {
  import opened Bytes
  import opened HeaderPrinter
  import opened HeaderReplacement
  import opened MailRewrite
  import opened Mailboxes
  import opened PipelineInvariant
  import opened PipelineSafety
  import opened PipelineTraces
  import opened ScanRewrite
  import opened Wrappers

  datatype FetchedMail = FetchedMail(uid: nat, item: Item)

  function FetchedBy(c: Command): seq<FetchedMail> {
    if c.Fetched? then [FetchedMail(c.uid, c.item)] else []
  }

  function MalformedBy(c: Command): seq<nat> {
    if c.FetchedMalformed? then [c.uid] else []
  }

  /** The mails that were fetched, and the UIDs of the malformed ones, in order. */
  function FetchedMails(log: seq<Entry>): seq<FetchedMail> {
    if log == [] then [] else FetchedMails(log[..|log| - 1]) + FetchedBy(log[|log| - 1].cmd)
  }

  function MalformedUids(log: seq<Entry>): seq<nat> {
    if log == [] then [] else MalformedUids(log[..|log| - 1]) + MalformedBy(log[|log| - 1].cmd)
  }

  function BatchMails(scans: seq<Scan>): seq<FetchedMail> {
    seq(|scans|, i requires 0 <= i < |scans| => FetchedMail(scans[i].uid, scans[i].item))
  }

  ghost predicate AllRewritten(cfg: Config, scans: seq<Scan>) {
    forall k :: 0 <= k < |scans| ==> RewriteOf(cfg.fmt, scans[k].item, scans[k].result, scans[k].rw)
  }

  /** The batch holds the malformed mails and exactly the fetched ones but for the given rest. */
  ghost predicate Batched(cfg: Config, fetched: seq<FetchedMail>, malformed: seq<nat>, b: Batch,
                          rest: seq<FetchedMail>)
  {
    AllRewritten(cfg, b.scans) && b.malformed == malformed && fetched == BatchMails(b.scans) + rest
  }

  /** The loop over the messages is over: all fetched mails are in the batch, or all but the last
      one, which failed. */
  ghost predicate BatchClosed(cfg: Config, fetched: seq<FetchedMail>, malformed: seq<nat>, b: Batch, failed: bool) {
    Batched(cfg, fetched, malformed, b, []) || (failed && exists m :: Batched(cfg, fetched, malformed, b, [m]))
  }

  ghost predicate BatchMatches(cfg: Config, fetched: seq<FetchedMail>, malformed: seq<nat>, st: Stage) {
    match st
    case Fetching(b) => Batched(cfg, fetched, malformed, b, [])
    case Got(b, uid, item) => Batched(cfg, fetched, malformed, b, [FetchedMail(uid, item)])
    case Replacing(b, _, failed) => BatchClosed(cfg, fetched, malformed, b, failed)
    case Uploading(b, _, failed) => BatchClosed(cfg, fetched, malformed, b, failed)
    case ScanDone(b, failed) => BatchClosed(cfg, fetched, malformed, b, failed)
    case _ => false
  }

  ghost predicate ScanInv(cfg: Config, log: seq<Entry>, st: Stage) {
    BatchMatches(cfg, FetchedMails(log), MalformedUids(log), st)
  }

  predicate Closed(st: Stage) {
    st.Replacing? || st.Uploading? || st.ScanDone?
  }

  lemma FetchStep(cfg: Config, fetched: seq<FetchedMail>, malformed: seq<nat>, c: Command, st: Stage)
    requires st.Fetching? && Batched(cfg, fetched, malformed, st.b, [])
    requires (c.Fetched? || c.FetchedMalformed?) && NextStage(cfg, st, c).Some?
    ensures BatchMatches(cfg, fetched + FetchedBy(c), malformed + MalformedBy(c), NextStage(cfg, st, c).value)
  {
  }

  lemma ScannedStep(cfg: Config, fetched: seq<FetchedMail>, malformed: seq<nat>, b: Batch, scan: Scan)
    requires Batched(cfg, fetched, malformed, b, [FetchedMail(scan.uid, scan.item)])
    requires RewriteOf(cfg.fmt, scan.item, scan.result, scan.rw)
    ensures Batched(cfg, fetched, malformed, b.(scans := b.scans + [scan]), [])
  {
    assert BatchMails(b.scans + [scan]) == BatchMails(b.scans) + [FetchedMail(scan.uid, scan.item)];
  }

  /** What follows the loop leaves the batch as it is. */
  lemma ClosedStep(cfg: Config, c: Command, st: Stage)
    requires Closed(st) && !c.Open? && NextStage(cfg, st, c).Some?
    ensures !c.Fetched? && !c.FetchedMalformed?
    ensures var st' := NextStage(cfg, st, c).value; Closed(st') && st'.b == st.b && (st.failed ==> st'.failed)
  {
  }

  lemma LoopCommand(cfg: Config, c: Command, st: Stage)
    requires (st.Fetching? || st.Got?) && !c.Open? && NextStage(cfg, st, c).Some?
    ensures match c
            case Fetched(_, _) => st.Fetching?
            case FetchedMalformed(_) => st.Fetching?
            case Scanned(m) =>
              && st.Got? && m.uid == st.uid && m.item == st.item && RewriteOf(cfg.fmt, m.item, m.result, m.rw)
              && NextStage(cfg, st, c) == Some(Fetching(st.b.(scans := st.b.scans + [m])))
            case FetchOver => NextStage(cfg, st, c) == Some(Replacing(st.b, 0, st.Got?))
            case _ => false
  {
  }

  lemma {:induction false} ScanStep(cfg: Config, fetched: seq<FetchedMail>, malformed: seq<nat>, c: Command, st: Stage)
    requires BatchMatches(cfg, fetched, malformed, st) && !c.Open? && NextStage(cfg, st, c).Some?
    ensures BatchMatches(cfg, fetched + FetchedBy(c), malformed + MalformedBy(c), NextStage(cfg, st, c).value)
  {
    if Closed(st) {
      ClosedStep(cfg, c, st);
    } else {
      LoopCommand(cfg, c, st);
      if c.Scanned? {
        ScannedStep(cfg, fetched, malformed, st.b, c.scan);
      } else if !c.FetchOver? {
        FetchStep(cfg, fetched, malformed, c, st);
      }
    }
  }

  /** A pass over the scan box: whatever stage it has reached, its batch is exactly the fetched mails
      up to the first one that failed. */
  lemma {:induction false} ScanPass(cfg: Config, r: Run, log: seq<Entry>)
    requires r.st == Fetching(Batch([], [])) && Exec(cfg, r, log).Some? && SamePhase(log)
    ensures ScanInv(cfg, log, Exec(cfg, r, log).value.st)
    decreases |log|
  {
    if log != [] {
      var n := |log| - 1;
      var before := log[..n];
      ScanPass(cfg, r, before);
      ScanStep(cfg, FetchedMails(before), MalformedUids(before), log[n].cmd, Exec(cfg, r, before).value.st);
    }
  }

  /** Every Move of a pass takes one mail to the backup box; only the last command of a pass that is
      done takes the malformed mails, all of them, to the inbox. */
  ghost predicate MovesAre(cfg: Config, log: seq<Entry>, st: Stage) {
    && (forall k :: 0 <= k < |log| && log[k].cmd.Move? ==>
          || (|log[k].cmd.uids| == 1 && log[k].cmd.dest == cfg.backup)
          || (k == |log| - 1 && st.ScanDone?))
    && (st.ScanDone? ==>
          && log != [] && log[|log| - 1].cmd.Move? && log[|log| - 1].cmd.dest == cfg.inbox
          && log[|log| - 1].cmd.uids == MalformedUids(log) != [])
  }

  lemma NothingFollows(cfg: Config, c: Command, st: Stage)
    requires !LearnStage(st) && !c.Open? && NextStage(cfg, st, c).Some?
    ensures !st.ScanDone?
    ensures NextStage(cfg, st, c).value.ScanDone? ==>
              c.Move? && st.Replacing? && c.dest == cfg.inbox && c.uids == st.b.malformed != []
    ensures c.Move? && !NextStage(cfg, st, c).value.ScanDone? ==> |c.uids| == 1 && c.dest == cfg.backup
  {
  }

  lemma MovesStep(cfg: Config, before: seq<Entry>, log: seq<Entry>, st: Stage, st': Stage)
    requires log != [] && before == log[..|log| - 1] && !log[|log| - 1].cmd.Open?
    requires MovesAre(cfg, before, st) && ScanInv(cfg, before, st)
    requires NextStage(cfg, st, log[|log| - 1].cmd) == Some(st')
    ensures MovesAre(cfg, log, st')
  {
    NothingFollows(cfg, log[|log| - 1].cmd, st);
    assert forall k :: 0 <= k < |before| ==> log[k] == before[k];
  }

  lemma {:induction false} MalformedGoToInbox(cfg: Config, r: Run, log: seq<Entry>)
    requires r.st == Fetching(Batch([], [])) && Exec(cfg, r, log).Some? && SamePhase(log)
    ensures MovesAre(cfg, log, Exec(cfg, r, log).value.st)
    decreases |log|
  {
    if log != [] {
      var before, st := LastStage(cfg, r, log);
      MalformedGoToInbox(cfg, r, before);
      ScanPass(cfg, r, before);
      MovesStep(cfg, before, log, st, Exec(cfg, r, log).value.st);
    }
  }

  predicate Refused(c: Command) {
    (c.Move? || c.Upload?) && !c.ok
  }

  ghost predicate SomeRefused(log: seq<Entry>) {
    exists k :: 0 <= k < |log| && Refused(log[k].cmd)
  }

  /** A pass counts as failed exactly if a Move or an Upload was refused, or a fetched mail is not in the
      batch. */
  ghost predicate FailuresAre(log: seq<Entry>, st: Stage) {
    && (st.Fetching? || st.Got? ==> !SomeRefused(log))
    && (Closed(st) ==> (st.failed <==> SomeRefused(log) || |FetchedMails(log)| != |st.b.scans|))
  }

  lemma RefusedSnoc(log: seq<Entry>, e: Entry)
    ensures SomeRefused(log + [e]) <==> SomeRefused(log) || Refused(e.cmd)
  {
    var more := log + [e];
    assert more[|log|] == e;
    if SomeRefused(log) {
      var k :| 0 <= k < |log| && Refused(log[k].cmd);
      assert more[k] == log[k];
    }
    if k :| 0 <= k < |more| && Refused(more[k].cmd) {
      assert k < |log| ==> log[k] == more[k];
    }
  }

  lemma FailureStep(cfg: Config, c: Command, st: Stage)
    requires !LearnStage(st) && !st.Idle? && !c.Open? && NextStage(cfg, st, c).Some?
    ensures var st' := NextStage(cfg, st, c).value;
            && !LearnStage(st') && !st'.Idle?
            && (st.Fetching? || st.Got? ==> !Refused(c) && (Closed(st') ==> st'.b == st.b && st'.failed == st.Got?))
            && (Closed(st) ==> Closed(st') && st'.b == st.b && st'.failed == (st.failed || Refused(c)) && !c.Fetched?)
  {
  }

  lemma FailuresStep(cfg: Config, before: seq<Entry>, log: seq<Entry>, st: Stage, st': Stage)
    requires log != [] && before == log[..|log| - 1] && !log[|log| - 1].cmd.Open?
    requires FailuresAre(before, st) && ScanInv(cfg, before, st)
    requires NextStage(cfg, st, log[|log| - 1].cmd) == Some(st')
    ensures FailuresAre(log, st')
  {
    var e := log[|log| - 1];
    assert log == before + [e];
    RefusedSnoc(before, e);
    FailureStep(cfg, e.cmd, st);
  }

  lemma {:induction false} FailsExactlyIf(cfg: Config, r: Run, log: seq<Entry>)
    requires r.st == Fetching(Batch([], [])) && Exec(cfg, r, log).Some? && SamePhase(log)
    ensures FailuresAre(log, Exec(cfg, r, log).value.st)
    decreases |log|
  {
    if log != [] {
      var before, st := LastStage(cfg, r, log);
      FailsExactlyIf(cfg, r, before);
      ScanPass(cfg, r, before);
      FailuresStep(cfg, before, log, st, Exec(cfg, r, log).value.st);
    }
  }

  // ---- a pass without an error -----------------------------------------------------------------

  /** processScanBox has dealt with every mail that was scanned or malformed. */
  ghost predicate Complete(st: Stage) {
    st.ScanDone? || (st.Replacing? && st.next == |st.b.scans| && st.b.malformed == [])
  }

  /** Each of these mails is an original, and exactly one upload was attempted for it in the whole
      run. */
  ghost predicate UploadedOnce(w: World, mails: seq<FetchedMail>) {
    forall m :: m in mails ==> m.item.kind.Original? && w.attempts[m.item.kind.id] == 1
  }

  /** Between two points of the log there is one pass over the scan box, and all mails fetched in it
      were uploaded. */
  ghost predicate UploadedPass(w: World, log: seq<Entry>, from: nat, to: nat) {
    && from < to <= |log| && OnePass(ScanJob, log[..from], log[..to])
    && UploadedOnce(w, FetchedMails(log[from + 1..to]))
  }

  lemma {:induction false} UploadedLastPass(w: World, log0: seq<Entry>, log: seq<Entry>)
    requires OnePass(ScanJob, log0, log) && UploadedOnce(w, FetchedMails(log[|log0| + 1..]))
    ensures UploadedPass(w, log, |log0|, |log|)
  {
    assert log[..|log|] == log && log[|log0| + 1..|log|] == log[|log0| + 1..];
  }

  lemma UnfailedBatch(cfg: Config, fetched: seq<FetchedMail>, malformed: seq<nat>, st: Stage)
    requires BatchMatches(cfg, fetched, malformed, st) && Complete(st) && !st.failed
    ensures fetched == BatchMails(st.b.scans)
  {
  }

  lemma ScanOfBatchMail(scans: seq<Scan>, m: FetchedMail) returns (scan: Scan)
    requires m in BatchMails(scans)
    ensures scan in scans && scan.item == m.item
  {
    var k :| 0 <= k < |scans| && BatchMails(scans)[k] == m;
    scan := scans[k];
  }

  lemma BatchUploadedOnce(cfg: Config, r: Run)
    requires Validate(cfg) && ScanBoxApart(cfg) && Reached(cfg, r) && Complete(r.st) && !r.st.failed
    ensures UploadedOnce(r.w, BatchMails(r.st.b.scans))
  {
    NoErrorMeansAllUploaded(cfg, r);
    forall m | m in BatchMails(r.st.b.scans)
      ensures m.item.kind.Original? && r.w.attempts[m.item.kind.id] == 1
    {
      var scan := ScanOfBatchMail(r.st.b.scans, m);
    }
  }

  lemma NoErrorUploadsFetched(cfg: Config, r: Run, fetched: seq<FetchedMail>, malformed: seq<nat>)
    requires Validate(cfg) && ScanBoxApart(cfg) && Reached(cfg, r)
    requires BatchMatches(cfg, fetched, malformed, r.st) && Complete(r.st) && !r.st.failed
    ensures UploadedOnce(r.w, fetched)
  {
    UnfailedBatch(cfg, fetched, malformed, r.st);
    BatchUploadedOnce(cfg, r);
  }

  lemma {:induction false} AttemptsGrow(cfg: Config, r: Run, log: seq<Entry>)
    requires Exec(cfg, r, log).Some?
    ensures forall id :: r.w.attempts[id] <= Exec(cfg, r, log).value.w.attempts[id]
    decreases |log|
  {
    if log != [] {
      AttemptsGrow(cfg, r, log[..|log| - 1]);
    }
  }

  lemma {:induction false} UploadedOnceStays(cfg: Config, r0: Run, log: seq<Entry>, log': seq<Entry>,
                                             mails: seq<FetchedMail>)
    requires Validate(cfg) && ScanBoxApart(cfg) && Start(cfg, r0)
    requires Exec(cfg, r0, log).Some? && Exec(cfg, r0, log').Some? && log <= log'
    requires UploadedOnce(Exec(cfg, r0, log).value.w, mails)
    ensures UploadedOnce(Exec(cfg, r0, log').value.w, mails)
  {
    var r, r' := Exec(cfg, r0, log).value, Exec(cfg, r0, log').value;
    var more := log'[|log|..];
    assert log' == log + more;
    ExecAppend(cfg, r0, log, r, more);
    AttemptsGrow(cfg, r, more);
    OnceAlways(cfg, r0, log');
  }

  /** Whatever the pipeline does later, no mail of such a pass is uploaded again. */
  lemma {:induction false} UploadedPassStays(cfg: Config, r0: Run, log: seq<Entry>, log': seq<Entry>,
                                             from: nat, to: nat)
    requires Validate(cfg) && ScanBoxApart(cfg) && Start(cfg, r0)
    requires Exec(cfg, r0, log).Some? && Exec(cfg, r0, log').Some? && log <= log'
    requires UploadedPass(Exec(cfg, r0, log).value.w, log, from, to)
    ensures UploadedPass(Exec(cfg, r0, log').value.w, log', from, to)
  {
    UploadedOnceStays(cfg, r0, log, log', FetchedMails(log[from + 1..to]));
    assert log'[..from] == log[..from] && log'[..to] == log[..to] && log'[from + 1..to] == log[from + 1..to];
  }

  // ---- a mail that stops every pass -----------------------------------------------------------

  ghost predicate Rewritable(cfg: Config, item: Item) {
    exists result, rw :: RewriteOf(cfg.fmt, item, result, rw)
  }

  lemma BatchIsRewritable(cfg: Config, fetched: seq<FetchedMail>, malformed: seq<nat>, st: Stage, k: nat)
    requires BatchMatches(cfg, fetched, malformed, st) && k < |st.b.scans|
    ensures k < |fetched| && Rewritable(cfg, fetched[k].item)
  {
    var m := st.b.scans[k];
    assert BatchMails(st.b.scans)[k] == fetched[k];
    assert RewriteOf(cfg.fmt, m.item, m.result, m.rw);
  }

  /** No mail behind one that cannot be rewritten is ever fetched in a pass, nor is that one itself
      dealt with. */
  lemma {:induction false} BlockedByUnrewritable(cfg: Config, r: Run, log: seq<Entry>, k: nat)
    requires r.st == Fetching(Batch([], [])) && Exec(cfg, r, log).Some? && SamePhase(log)
    requires k < |FetchedMails(log)| && !Rewritable(cfg, FetchedMails(log)[k].item)
    ensures var st := Exec(cfg, r, log).value.st;
            |FetchedMails(log)| == k + 1 && !LearnStage(st) && !st.Idle? && |st.b.scans| == k
  {
    var st := Exec(cfg, r, log).value.st;
    ScanPass(cfg, r, log);
    if k < |st.b.scans| {
      BatchIsRewritable(cfg, FetchedMails(log), MalformedUids(log), st, k);
    }
  }

  /** A MOVE of the pipeline takes no such mail out of the scan box. */
  lemma MovesRewritable(cfg: Config, w: World, st: Stage, c: Command, u: nat)
    requires Validate(cfg) && StageInv(cfg, w, st) && c.Move? && NextStage(cfg, st, c).Some?
    requires w.selected == Some(cfg.scan) && u in c.uids && Slot(cfg.scan, u) in w.mails
    ensures var item := w.mails[Slot(cfg.scan, u)]; Malformed(item) || Rewritable(cfg, item)
  {
    assert !LearnStage(st);
    if st.next < |st.b.scans| {
      var m := st.b.scans[st.next];
      assert Holds(w.mails, cfg.scan, m.uid, m.item);
      assert RewriteOf(cfg.fmt, m.item, m.result, m.rw);
    }
  }

  lemma CommandLeavesIt(cfg: Config, w: World, st: Stage, c: Command, s: Slot)
    requires Validate(cfg) && StageInv(cfg, w, st) && Legal(w, c) && NextStage(cfg, st, c).Some?
    requires s.box == cfg.scan && s in w.mails && !Malformed(w.mails[s]) && !Rewritable(cfg, w.mails[s])
    ensures var mails := Effect(cfg, w, c).mails; s in mails && mails[s] == w.mails[s]
  {
    if c.Move? && c.placed != map[] {
      var src := w.selected.value;
      if src == cfg.scan && s.uid in c.placed.Values {
        var v :| v in c.placed && c.placed[v] == s.uid;
        MovesRewritable(cfg, w, st, c, s.uid);
      }
      Stays(w.mails, src, c.dest, c.placed, s);
    }
  }

  /** A well-formed mail that cannot be rewritten stays in the scan box in every run: so every pass
      that comes to it ends there. */
  lemma {:induction false} UnrewritableStays(cfg: Config, r: Run, log: seq<Entry>, s: Slot)
    requires Validate(cfg) && Inv(cfg, r) && Exec(cfg, r, log).Some?
    requires s.box == cfg.scan && s in r.w.mails && !Malformed(r.w.mails[s]) && !Rewritable(cfg, r.w.mails[s])
    ensures var r' := Exec(cfg, r, log).value;
            Inv(cfg, r') && s in r'.w.mails && r'.w.mails[s] == r.w.mails[s]
    decreases |log|
  {
    if log != [] {
      var n := |log| - 1;
      UnrewritableStays(cfg, r, log[..n], s);
      var before := Exec(cfg, r, log[..n]).value;
      StepKeepsInv(cfg, before, log[n]);
      CommandLeavesIt(cfg, AfterOthers(before.w, log[n].others), before.st, log[n].cmd, s);
    }
  }

  lemma {:induction false} ReplacedOneLine(subject: Header)
    ensures ReplaceSpec([65], false, subject).Ok? ==> ReplaceSpec([65], false, subject).value == [65] + CRLF
  {
    assert Lines([65]) == [[65]];
    ReplaceSucceeds([65], subject);
    assert !Matches([65], subject.name);
    JoinOne([65]);
  }

  lemma MidOfOneByte(cfg: Config, item: Item, result: CheckResult, rw: Rewrite)
    requires !Malformed(item) && item.body == Some([65]) && IsMid(item, result, rw.mid)
    ensures |rw.mid| <= 3
  {
    ReplacedOneLine(Header(SUBJECT, result.subject));
  }

  /** There are such mails, well-formed ones: here a body of one byte. */
  lemma OneByteIsUnrewritable(cfg: Config, item: Item)
    requires item.body == Some([65])
    ensures !Rewritable(cfg, item)
  {
    forall result, rw
      ensures !RewriteOf(cfg.fmt, item, result, rw)
    {
      if RewriteOf(cfg.fmt, item, result, rw) {
        MidOfOneByte(cfg, item, result, rw);
        var _ := CopyConserves(cfg.fmt, item, result, rw);
      }
    }
  }
}
