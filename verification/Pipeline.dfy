/** The pipeline itself: processScanBox, downloadAndScan, replaceWithModifiedMails and learn,
    with the temporary files they use. */
module Pipeline {
  import opened Bytes
  import opened HeaderInsertion
  import opened HeaderPrinter
  import opened HeaderReplacement
  import opened ImapSession
  import opened Mailboxes
  import opened PipelineLearn
  import opened PipelineSafety
  import opened PipelineScan
  import opened PipelineTraces
  import opened ScanHeaders
  import opened ScanRewrite
  import opened Wrappers

  /** The context of a phase: it may be cancelled at any time, and stays cancelled. */
  class Context {
    var cancelled: bool

    constructor ()
    {
      cancelled := false;
    }

    method Err() returns (err: bool)
      modifies this
      ensures err == cancelled && (old(cancelled) ==> cancelled)
    {
      var now: bool := *;
      cancelled := cancelled || now;
      err := cancelled;
    }
  }

  /** A local copy of a mail, and where it came from. */
  datatype File = File(kind: Kind, bytes: seq<byte>)

  class TempDir {
    var files: map<string, File>

    constructor ()
      ensures files == map[]
    {
      files := map[];
    }

    /** A file with a new name, if one can be created. */
    method CreateTemp(kind: Kind) returns (path: Option<string>)
      modifies this
      ensures path.None? ==> files == old(files)
      ensures path.Some? ==> path.value !in old(files) && path.value in files && files[path.value] == File(kind, [])
      ensures path.Some? ==> files - {path.value} == old(files)
    {
      var name: string := *;
      if name in files {
        return None;
      }
      files := files[name := File(kind, [])];
      return Some(name);
    }

    method Write(path: string, bytes: seq<byte>)
      requires path in files
      modifies this
      ensures path in files && files[path] == File(old(files)[path].kind, bytes)
      ensures files - {path} == old(files) - {path}
    {
      files := files[path := File(files[path].kind, bytes)];
    }

    /** Each file is removed while it exists: nothing is removed twice. */
    method Remove(path: string)
      requires path in files
      modifies this
      ensures files == old(files) - {path}
    {
      files := files - {path};
    }
  }

  datatype ScannedMail = ScannedMail(path: string, uid: nat, result: CheckResult)

  // ---- the ledger of temporary files ----------------------------------------------------

  function Paths(mails: seq<ScannedMail>, from: nat): set<string> {
    set i | from <= i < |mails| :: mails[i].path
  }

  /** The files of the mails from the given one on are there, each its own, and nothing else was
      added to the files there were; unless files are kept, no other file is left. */
  ghost predicate Ledger(keep: bool, base: map<string, File>, files: map<string, File>,
                         mails: seq<ScannedMail>, from: nat)
  {
    && (forall i :: from <= i < |mails| ==> mails[i].path in files && mails[i].path !in base)
    && (forall i, j :: from <= i < j < |mails| ==> mails[i].path != mails[j].path)
    && (if keep then forall p :: p in base ==> p in files && files[p] == base[p]
        else files - Paths(mails, from) == base)
  }

  /** What a phase leaves behind. */
  ghost predicate NothingLeft(keep: bool, base: map<string, File>, files: map<string, File>) {
    if keep then forall p :: p in base ==> p in files && files[p] == base[p] else files == base
  }

  lemma LedgerEmpty(keep: bool, base: map<string, File>, files: map<string, File>, mails: seq<ScannedMail>)
    ensures Ledger(keep, base, files, mails, |mails|) <==> NothingLeft(keep, base, files)
  {
    assert Paths(mails, |mails|) == {};
    assert files - {} == files;
  }

  lemma LedgerRemove(keep: bool, base: map<string, File>, files: map<string, File>, mails: seq<ScannedMail>, i: nat)
    requires i < |mails| && Ledger(keep, base, files, mails, i)
    ensures Ledger(keep, base, if keep then files else files - {mails[i].path}, mails, i + 1)
  {
    assert Paths(mails, i) == {mails[i].path} + Paths(mails, i + 1);
    if !keep {
      assert files - {mails[i].path} - Paths(mails, i + 1) == files - Paths(mails, i);
    }
  }

  /** The mails handed on are the scans of the trace, and their files hold the rewritten mails. */
  ghost predicate Matching(files: map<string, File>, mails: seq<ScannedMail>, scans: seq<Scan>, from: nat) {
    && |mails| == |scans|
    && (forall i :: 0 <= i < |mails| ==> mails[i].uid == scans[i].uid && mails[i].result == scans[i].result)
    && (forall i :: from <= i < |mails| ==>
          mails[i].path in files && files[mails[i].path] == File(scans[i].item.kind, scans[i].rw.copy))
  }

  lemma LedgerUnchanged(keep: bool, base: map<string, File>, files: map<string, File>, files': map<string, File>,
                        mails: seq<ScannedMail>, scans: seq<Scan>)
    requires Ledger(keep, base, files, mails, 0) && Matching(files, mails, scans, 0) && NothingLeft(keep, files, files')
    ensures Ledger(keep, base, files', mails, 0) && Matching(files', mails, scans, 0)
  {
  }

  lemma LedgerAdd(keep: bool, base: map<string, File>, files: map<string, File>, mails: seq<ScannedMail>,
                  m: ScannedMail, files': map<string, File>)
    requires Ledger(keep, base, files, mails, 0) && m.path !in files && m.path in files' && files' - {m.path} == files
    ensures Ledger(keep, base, files', mails + [m], 0)
  {
    var more := mails + [m];
    assert more[|mails|] == m && forall i :: 0 <= i < |mails| ==> more[i] == mails[i];
    forall p | p in Paths(mails, 0) + {m.path}
      ensures p in Paths(more, 0)
    {
      if p in Paths(mails, 0) {
        var i :| 0 <= i < |mails| && mails[i].path == p;
        assert more[i].path == p;
      }
    }
    assert Paths(more, 0) == Paths(mails, 0) + {m.path};
    if !keep {
      assert files' - Paths(more, 0) == files - Paths(mails, 0);
    }
  }

  ghost predicate IsNext(b: Batch, st: Stage, files: map<string, File>, m: ScannedMail, scan: Scan) {
    && st == Fetching(b.(scans := b.scans + [scan]))
    && m.uid == scan.uid && m.result == scan.result
    && m.path in files && files[m.path] == File(scan.item.kind, scan.rw.copy)
  }

  /** One more mail was scanned; its file holds the rewritten mail. */
  ghost predicate OneMoreScan(b: Batch, st: Stage, files: map<string, File>, m: ScannedMail) {
    exists scan :: IsNext(b, st, files, m, scan)
  }

  lemma ScannedAccepted(cfg: Config, st: Stage, scan: Scan)
    requires st.Got? && st.uid == scan.uid && st.item == scan.item
    requires RewriteOf(cfg.fmt, scan.item, scan.result, scan.rw)
    ensures NextStage(cfg, st, Scanned(scan)) == Some(Fetching(st.b.(scans := st.b.scans + [scan])))
  {
  }

  datatype LearnResult =
    | Skipped | Cancelled | FetchFailed | LearnFailed | GaveUp | NothingToMove | MoveFailed | AllMoved

  /** What the result of a learning pass says about how far it came. */
  ghost predicate EndsAs(r: LearnResult, st: Stage) {
    match r
    case AllMoved => st.LearnDone? && st.ok
    case MoveFailed => st.LearnDone? && !st.ok
    case NothingToMove => st.Learnt? && st.uids == []
    case GaveUp => st.LearnGot?
    case LearnFailed => st.LearnGot?
    case _ => !st.LearnDone?
  }

  function LearnJob(cfg: Config, job: Job): seq<Job> {
    if Enabled(cfg, job) then [job] else []
  }

  /** The phases of a plan were begun in order, and all of them unless there was an error. */
  ghost predicate Followed(plan: seq<Job>, log: seq<Entry>, log': seq<Entry>, err: bool) {
    exists k: nat :: k <= |plan| && (!err ==> k == |plan|) && Jobs(log') == Jobs(log) + plan[..k]
  }

  lemma FollowedMore(plan: seq<Job>, job: Job, log: seq<Entry>, log1: seq<Entry>, log2: seq<Entry>, err: bool)
    requires Followed(plan, log, log1, false) && (OnePass(job, log1, log2) || (err && log2 == log1))
    ensures Followed(plan + [job], log, log2, err)
  {
    assert plan[..|plan|] == plan;
    if OnePass(job, log1, log2) {
      JobsOfPass(job, log1, log2);
      assert (plan + [job])[..|plan| + 1] == plan + [job];
      assert Jobs(log2) == Jobs(log) + (plan + [job])[..|plan| + 1];
    } else {
      assert (plan + [job])[..|plan|] == plan;
    }
  }

  lemma FollowedFurther(plan: seq<Job>, more: seq<Job>, log: seq<Entry>, log': seq<Entry>)
    requires Followed(plan, log, log', true)
    ensures Followed(plan + more, log, log', true)
  {
    var k: nat :| k <= |plan| && Jobs(log') == Jobs(log) + plan[..k];
    assert (plan + more)[..k] == plan[..k];
  }

  lemma FollowedLearn(cfg: Config, plan: seq<Job>, job: Job, log: seq<Entry>, log1: seq<Entry>, log2: seq<Entry>,
                      err: bool)
    requires Followed(plan, log, log1, false)
    requires (log2 == log1 && (err || !Enabled(cfg, job))) || (OnePass(job, log1, log2) && Enabled(cfg, job))
    ensures Followed(plan + LearnJob(cfg, job), log, log2, err)
  {
    if Enabled(cfg, job) {
      FollowedMore(plan, job, log, log1, log2, err);
    } else {
      assert plan + LearnJob(cfg, job) == plan;
      assert plan[..|plan|] == plan;
    }
  }

  /** What the log of a pass over the scan box shows: its batch, its moves and its failures. */
  ghost predicate PassIs(cfg: Config, log: seq<Entry>, st: Stage) {
    ScanInv(cfg, log, st) && MovesAre(cfg, log, st) && FailuresAre(log, st)
  }

  lemma MatchingAdd(files: map<string, File>, files': map<string, File>, mails: seq<ScannedMail>,
                    b: Batch, st: Stage, m: ScannedMail)
    requires Matching(files, mails, b.scans, 0) && OneMoreScan(b, st, files', m)
    requires m.path !in files && files' - {m.path} == files
    ensures st.Fetching? && st.b.malformed == b.malformed && Matching(files', mails + [m], st.b.scans, 0)
  {
    var scan :| IsNext(b, st, files', m, scan);
    forall i | 0 <= i < |mails|
      ensures files'[mails[i].path] == files[mails[i].path]
    {
      assert (files' - {m.path})[mails[i].path] == files[mails[i].path];
    }
  }

  /** A file that is removed is not that of a later mail. */
  lemma MatchingRest(keep: bool, base: map<string, File>, files: map<string, File>,
                     mails: seq<ScannedMail>, scans: seq<Scan>, i: nat)
    requires i < |mails| && Ledger(keep, base, files, mails, i) && Matching(files, mails, scans, i)
    ensures Matching(if keep then files else files - {mails[i].path}, mails, scans, i + 1)
  {
  }

  lemma MayMoveNext(cfg: Config, b: Batch, n: nat, failed: bool)
    requires n < |b.scans|
    ensures MayMove(cfg, Replacing(b, n, failed), [b.scans[n].uid], cfg.backup)
  {
  }

  lemma MayMoveMalformed(cfg: Config, b: Batch, failed: bool)
    requires b.malformed != []
    ensures MayMove(cfg, Replacing(b, |b.scans|, failed), b.malformed, cfg.inbox)
  {
  }

  lemma MayMoveLearned(cfg: Config, st: Stage)
    requires (st.Learnt? && !MarksSeen(cfg, st.job)) || st.Marked?
    requires st.uids != []
    ensures MayMove(cfg, st, st.uids, LearnDest(cfg, st.job))
  {
  }

  class Client {
    const cfg: Config
    const clt: Session
    const dir: TempDir

    ghost predicate Valid()
      reads this, clt
    {
      clt.Valid() && clt.cfg == cfg
    }

    constructor (clt: Session, dir: TempDir)
      requires clt.Valid()
      ensures Valid() && this.clt == clt && this.dir == dir && this.cfg == clt.cfg
    {
      this.cfg := clt.cfg;
      this.clt := clt;
      this.dir := dir;
    }

    // ---- temporary files ----------------------------------------------------------------

    method RemoveTempFile(path: string)
      requires path in dir.files
      modifies dir
      ensures dir.files == if cfg.keepTempFiles then old(dir.files) else old(dir.files) - {path}
    {
      if !cfg.keepTempFiles {
        dir.Remove(path);
      }
    }

    method CleanupScannedMails(mails: seq<ScannedMail>, from: nat, ghost base: map<string, File>)
      requires from <= |mails| && Ledger(cfg.keepTempFiles, base, dir.files, mails, from)
      modifies dir
      ensures NothingLeft(cfg.keepTempFiles, base, dir.files)
    {
      for i := from to |mails|
        invariant Ledger(cfg.keepTempFiles, base, dir.files, mails, i)
      {
        LedgerRemove(cfg.keepTempFiles, base, dir.files, mails, i);
        RemoveTempFile(mails[i].path);
      }
      LedgerEmpty(cfg.keepTempFiles, base, dir.files, mails);
    }

    // ---- scanning --------------------------------------------------------------------------

    /** rspamd's verdict, or an error. */
    method Check(bytes: seq<byte>) returns (r: Option<CheckResult>)
    {
      r := *;
    }

    /** The rewritten bytes, with the steps that led there. Nothing is returned only after a file
        error (fault), or if the mail cannot be rewritten, or no read holds the end of its header. */
    method Rewrite(item: Item, result: CheckResult)
      returns (copy: Option<seq<byte>>, fault: bool, ghost rw: ScanRewrite.Rewrite)
      requires !Malformed(item)
      ensures copy.Some? ==> RewriteOf(cfg.fmt, item, result, rw) && rw.copy == copy.value
      ensures copy.Some? && result.subject != [] && item.subject != Some(result.subject) ==>
                SubjectReplaced(item.body.value, result.subject, rw.mid)
      ensures copy.Some? && (result.subject == [] || item.subject == Some(result.subject)) ==> rw.mid == item.body.value
      ensures copy.None? ==>
                || fault
                || !CanRewrite(cfg.fmt, item, result)
                || (IsMid(item, result, rw.mid) && Flatten(rw.chunks) == rw.mid && ChunkedDelim(rw.chunks).None?)
    {
      rw := ScanRewrite.Rewrite([], [], [], [], []);
      var bytes := item.body.value;
      if result.subject != [] && item.subject != Some(result.subject) {
        fault := *;
        var replaced := ReplaceHeader(bytes, fault, Header(SUBJECT, result.subject));
        if replaced.Err? {
          return None, fault, rw;
        }
        bytes := replaced.value;
      }
      ghost var mid := bytes;
      var section, sorted := ScanResultSection(result.symbols, result.score, cfg.fmt);
      if section.Err? {
        RefusedHeader(cfg.fmt, item, result, sorted);
        return None, false, rw;
      }
      var chunks: seq<seq<byte>> := *;
      if Flatten(chunks) != bytes {
        chunks := [bytes];
        assert Flatten(chunks) == bytes;
      }
      fault := *;
      var added := AddHeaders(chunks, fault, section.value);
      if added.Err? {
        rw := ScanRewrite.Rewrite(mid, chunks, sorted, section.value, []);
        return None, fault, rw;
      }
      rw := ScanRewrite.Rewrite(mid, chunks, sorted, section.value, added.value);
      return Some(added.value), fault, rw;
    }

    /** The clean-up after an error: the new file goes, all others stay. */
    method Discard(path: string, ghost base: map<string, File>)
      requires path in dir.files && path !in base && dir.files - {path} == base
      modifies dir
      ensures NothingLeft(cfg.keepTempFiles, base, dir.files)
    {
      RemoveTempFile(path);
    }

    /** The message is stored in a temporary file, scanned and rewritten there. Without a result
        the file is gone again. */
    method DownloadAndScan(ctx: Context, uid: nat, item: Item) returns (r: Option<ScannedMail>)
      requires Valid() && clt.stage.Got? && clt.stage.uid == uid && clt.stage.item == item && !Malformed(item)
      modifies clt`log, clt`stage, dir, ctx
      ensures Valid()
      ensures r.None? ==>
                && clt.log == old(clt.log) && clt.stage == old(clt.stage)
                && NothingLeft(cfg.keepTempFiles, old(dir.files), dir.files)
      ensures r.Some? ==>
                && OneMore(old(clt.log), clt.log)
                && OneMoreScan(old(clt.stage).b, clt.stage, dir.files, r.value)
                && r.value.path !in old(dir.files) && dir.files - {r.value.path} == old(dir.files)
    {
      ghost var base := dir.files;
      var created := dir.CreateTemp(item.kind);
      if created.None? {
        return None;
      }
      var path := created.value;
      var cancelled := ctx.Err();
      if cancelled {
        Discard(path, base);
        return None;
      }
      dir.Write(path, item.body.value);
      var copyFails: bool := *;
      if copyFails {
        Discard(path, base);
        return None;
      }
      var checked := Check(item.body.value);
      if checked.None? {
        Discard(path, base);
        return None;
      }
      cancelled := ctx.Err();
      if cancelled {
        Discard(path, base);
        return None;
      }
      var copy, _, rw := Rewrite(item, checked.value);
      if copy.None? {
        Discard(path, base);
        return None;
      }
      dir.Write(path, copy.value);
      ghost var scan := Scan(uid, item, checked.value, rw);
      ScannedAccepted(cfg, clt.stage, scan);
      clt.Note(Scanned(scan), Fetching(clt.stage.b.(scans := clt.stage.b.scans + [scan])));
      r := Some(ScannedMail(path, uid, checked.value));
      assert IsNext(old(clt.stage).b, clt.stage, dir.files, r.value, scan);
    }

    // ---- the originals and their copies -----------------------------------------------------

    /** The copy is read from its file and uploaded to the box its score says. */
    method UploadCopy(mail: ScannedMail) returns (ok: bool)
      requires Valid() && clt.stage.Uploading? && clt.stage.next < |clt.stage.b.scans| && mail.path in dir.files
      requires var m := clt.stage.b.scans[clt.stage.next];
               mail.result == m.result && dir.files[mail.path] == File(m.item.kind, m.rw.copy)
      modifies clt
      ensures Valid() && OneMore(old(clt.log), clt.log)
      ensures clt.stage == Replacing(old(clt.stage).b, old(clt.stage).next + 1, old(clt.stage).failed || !ok)
    {
      var mbox := if IsSpam(cfg, mail.result) then cfg.spam else cfg.inbox;
      var file := dir.files[mail.path];
      ok := clt.Upload(mbox, CopyKind(file.kind), file.bytes);
    }

    /** One mail: its original is moved to the backup box and, if that succeeds, its copy is
        uploaded; either way its file is removed. */
    method ReplaceOne(mails: seq<ScannedMail>, i: nat, ghost base: map<string, File>) returns (ok: bool)
      requires Valid() && clt.stage.Replacing? && clt.stage.next == i < |mails|
      requires Matching(dir.files, mails, clt.stage.b.scans, i) && Ledger(cfg.keepTempFiles, base, dir.files, mails, i)
      modifies clt, dir
      ensures Valid() && clt.stage == Replacing(old(clt.stage).b, i + 1, old(clt.stage).failed || !ok)
      ensures Matching(dir.files, mails, clt.stage.b.scans, i + 1)
      ensures Ledger(cfg.keepTempFiles, base, dir.files, mails, i + 1)
      ensures Continues(old(clt.log), clt.log)
    {
      var mail := mails[i];
      ghost var log := clt.log;
      MayMoveNext(cfg, clt.stage.b, i, clt.stage.failed);
      MatchingRest(cfg.keepTempFiles, base, dir.files, mails, clt.stage.b.scans, i);
      LedgerRemove(cfg.keepTempFiles, base, dir.files, mails, i);
      ok := clt.Move([mail.uid], cfg.backup);
      ghost var moved := clt.log;
      ContinuesMore(log, log, moved);
      if !ok {
        RemoveTempFile(mail.path);
        return;
      }
      ok := UploadCopy(mail);
      ContinuesMore(log, moved, clt.log);
      RemoveTempFile(mail.path);
    }

    /** Every scanned mail is replaced, unless the context is cancelled before its turn. The files
        of all are removed. */
    method ReplaceWithModifiedMails(ctx: Context, mails: seq<ScannedMail>, ghost base: map<string, File>)
      returns (err: bool)
      requires Valid() && clt.stage.Replacing? && clt.stage.next == 0
      requires Matching(dir.files, mails, clt.stage.b.scans, 0) && Ledger(cfg.keepTempFiles, base, dir.files, mails, 0)
      modifies clt, dir, ctx
      ensures Valid() && NothingLeft(cfg.keepTempFiles, base, dir.files)
      ensures clt.stage.Replacing? && clt.stage.b == old(clt.stage).b && clt.stage.next <= |mails|
      ensures clt.stage.next < |mails| ==> err && ctx.cancelled
      ensures clt.stage.next == |mails| ==> clt.stage.failed == (old(clt.stage).failed || err)
      ensures Continues(old(clt.log), clt.log)
    {
      err := false;
      ghost var b, failed, log := clt.stage.b, clt.stage.failed, clt.log;
      for i := 0 to |mails|
        invariant Valid() && clt.stage == Replacing(b, i, failed || err) && Continues(log, clt.log)
        invariant Matching(dir.files, mails, b.scans, i) && Ledger(cfg.keepTempFiles, base, dir.files, mails, i)
      {
        var cancelled := ctx.Err();
        if cancelled {
          CleanupScannedMails(mails, i, base);
          return true;
        }
        ghost var before := clt.log;
        var ok := ReplaceOne(mails, i, base);
        ContinuesTrans(log, before, clt.log);
        err := err || !ok;
      }
      LedgerEmpty(cfg.keepTempFiles, base, dir.files, mails);
    }

    /** One more message is scanned and joins the scanned mails, or it failed and all is as before. */
    method ScanInto(ctx: Context, uid: nat, item: Item, mails: seq<ScannedMail>, ghost base: map<string, File>)
      returns (more: Option<seq<ScannedMail>>)
      requires Valid() && clt.stage.Got? && clt.stage.uid == uid && clt.stage.item == item && !Malformed(item)
      requires Matching(dir.files, mails, clt.stage.b.scans, 0) && Ledger(cfg.keepTempFiles, base, dir.files, mails, 0)
      modifies clt`log, clt`stage, dir, ctx
      ensures Valid()
      ensures more.None? ==>
                && clt.log == old(clt.log) && clt.stage == old(clt.stage)
                && Matching(dir.files, mails, clt.stage.b.scans, 0)
                && Ledger(cfg.keepTempFiles, base, dir.files, mails, 0)
      ensures more.Some? ==>
                && OneMore(old(clt.log), clt.log)
                && clt.stage.Fetching? && clt.stage.b.malformed == old(clt.stage).b.malformed
                && more.value != [] && more.value[..|more.value| - 1] == mails
                && Matching(dir.files, more.value, clt.stage.b.scans, 0)
                && Ledger(cfg.keepTempFiles, base, dir.files, more.value, 0)
    {
      ghost var b, files := clt.stage.b, dir.files;
      var sm := DownloadAndScan(ctx, uid, item);
      if sm.None? {
        LedgerUnchanged(cfg.keepTempFiles, base, files, dir.files, mails, clt.stage.b.scans);
        return None;
      }
      LedgerAdd(cfg.keepTempFiles, base, files, mails, sm.value, dir.files);
      MatchingAdd(files, dir.files, mails, b, clt.stage, sm.value);
      return Some(mails + [sm.value]);
    }

    /** The loop over the messages of the scan box. Either it is aborted and all files are
        removed, or it yields the scanned mails, the malformed ones, and whether one failed. */
    method ScanMessages(ctx: Context, count: nat)
      returns (aborted: bool, scannedMails: seq<ScannedMail>, malformedUIDs: seq<nat>, errs: bool)
      requires Valid()
      requires if clt.world.selected == None then clt.stage == Idle && count == 1
               else clt.stage == Fetching(Batch([], []))
      modifies clt, dir, ctx
      ensures Valid() && Continues(old(clt.log), clt.log)
      ensures aborted ==> NothingLeft(cfg.keepTempFiles, old(dir.files), dir.files)
      ensures aborted ==> ctx.cancelled || clt.fetchFailed
      ensures aborted ==> clt.stage.Fetching? || clt.stage.Got? || clt.stage.Idle?
      ensures old(clt.world.selected) == None ==> clt.stage.Idle?
      ensures !aborted ==>
                && (if errs then clt.stage.Got? else clt.stage.Fetching?)
                && clt.stage.b.malformed == malformedUIDs && Matching(dir.files, scannedMails, clt.stage.b.scans, 0)
                && Ledger(cfg.keepTempFiles, old(dir.files), dir.files, scannedMails, 0)
    {
      scannedMails, malformedUIDs, errs := [], [], false;
      ghost var base, log := dir.files, clt.log;
      LedgerEmpty(cfg.keepTempFiles, base, dir.files, []);
      var left := count;
      while left > 0
        invariant Valid() && Ledger(cfg.keepTempFiles, base, dir.files, scannedMails, 0) && Continues(log, clt.log)
        invariant clt.world.selected == old(clt.world.selected)
        invariant clt.world.selected == None ==> clt.stage == Idle && left == 1
        invariant clt.world.selected != None ==>
                    && clt.stage.Fetching? && clt.stage.b.malformed == malformedUIDs
                    && Matching(dir.files, scannedMails, clt.stage.b.scans, 0)
      {
        left := left - 1;
        ghost var before := clt.log;
        var next := clt.Next();
        ContinuesMore(log, before, clt.log);
        if next.End? {
          break;
        }
        var cancelled := ctx.Err();
        if cancelled || next.Failed? {
          CleanupScannedMails(scannedMails, 0, base);
          return true, [], [], false;
        }
        if next.MalformedMail? {
          malformedUIDs := malformedUIDs + [next.uid];
          continue;
        }
        before := clt.log;
        var more := ScanInto(ctx, next.uid, next.item, scannedMails, base);
        ContinuesMore(log, before, clt.log);
        if more.None? {
          return false, scannedMails, malformedUIDs, true;
        }
        scannedMails := more.value;
      }
      return false, scannedMails, malformedUIDs, false;
    }

    /** What follows the loop: the scanned mails have their turn, then the malformed ones are moved. */
    method ReplaceScanned(ctx: Context, scannedMails: seq<ScannedMail>, malformedUIDs: seq<nat>, scanErrs: bool,
                          ghost base: map<string, File>, ghost atLog: seq<Entry>)
      returns (errs: bool)
      requires Valid() && (if scanErrs then clt.stage.Got? else clt.stage.Fetching?)
      requires clt.stage.b.malformed == malformedUIDs && Matching(dir.files, scannedMails, clt.stage.b.scans, 0)
      requires Ledger(cfg.keepTempFiles, base, dir.files, scannedMails, 0) && Continues(atLog, clt.log)
      modifies clt, dir, ctx
      ensures Valid() && NothingLeft(cfg.keepTempFiles, base, dir.files)
      ensures Continues(atLog, clt.log) && (clt.stage.Replacing? || clt.stage.ScanDone?)
      ensures !errs <==> Complete(clt.stage) && !clt.stage.failed
      ensures ctx.cancelled || Complete(clt.stage)
    {
      ghost var log := clt.log;
      clt.NoteFetchOver();
      ContinuesMore(atLog, log, clt.log);
      log := clt.log;
      var replaceErr := ReplaceWithModifiedMails(ctx, scannedMails, base);
      ContinuesTrans(atLog, log, clt.log);
      errs := scanErrs || replaceErr;
      if |malformedUIDs| > 0 {
        var cancelled := ctx.Err();
        if cancelled {
          return true;
        }
        log := clt.log;
        MayMoveMalformed(cfg, clt.stage.b, clt.stage.failed);
        var moved := clt.Move(malformedUIDs, cfg.inbox);
        ContinuesMore(atLog, log, clt.log);
        if !moved {
          errs := true;
        }
      }
    }

    /** One pass over the scan box. atLog and atStart: the log and the run right after the SELECT. */
    method ScanBox(ctx: Context) returns (err: bool, ghost atLog: seq<Entry>, ghost atStart: Run)
      requires Valid()
      modifies clt, dir, ctx
      ensures Valid() && NothingLeft(cfg.keepTempFiles, old(dir.files), dir.files)
      ensures Continues(atLog, clt.log) && |atLog| == |old(clt.log)| + 1 && OnePass(ScanJob, old(clt.log), atLog)
      ensures Exec(cfg, clt.start, atLog) == Some(atStart)
      ensures !clt.stage.Idle? ==> atStart.st == Fetching(Batch([], []))
      ensures !err <==> Complete(clt.stage) && !clt.stage.failed
      ensures ctx.cancelled || clt.fetchFailed || Complete(clt.stage)
      ensures !clt.stage.Uploading?
    {
      ghost var base := dir.files;
      var count := clt.Messages(ScanJob);
      atLog, atStart := clt.log, Run(clt.world, clt.stage);
      var aborted, scannedMails, malformedUIDs, errs := ScanMessages(ctx, count);
      if aborted {
        return true, atLog, atStart;
      }
      var cancelled := ctx.Err();
      if cancelled {
        CleanupScannedMails(scannedMails, 0, base);
        return true, atLog, atStart;
      }
      err := ReplaceScanned(ctx, scannedMails, malformedUIDs, errs, base, atLog);
    }

    /** processScanBox. Unless the context is cancelled or the FETCH fails every scanned mail has its
        turn and the malformed ones are moved; there is no error exactly if all of this succeeded; on
        every path no temporary file is left. The entries a pass adds to the log after its SELECT show
        that the mails fetched before the first failing one are dealt with. */
    method ProcessScanBox(ctx: Context) returns (err: bool)
      requires Valid()
      modifies clt, dir, ctx
      ensures Valid() && NothingLeft(cfg.keepTempFiles, old(dir.files), dir.files)
      ensures OnePass(ScanJob, old(clt.log), clt.log)
      ensures clt.stage.Idle? || PassIs(cfg, clt.log[|old(clt.log)| + 1..], clt.stage)
      ensures !err && Validate(cfg) && ScanBoxApart(cfg) ==>
                UploadedOnce(clt.world, FetchedMails(clt.log[|old(clt.log)| + 1..]))
      ensures !err <==> Complete(clt.stage) && !clt.stage.failed
      ensures ctx.cancelled || clt.fetchFailed || Complete(clt.stage)
      ensures !clt.stage.Uploading?
    {
      ghost var atLog, atStart;
      err, atLog, atStart := ScanBox(ctx);
      PassAfterOpen(cfg, clt.start, ScanJob, old(clt.log), atLog, atStart, clt.log);
      if !clt.stage.Idle? {
        ghost var pass := clt.log[|atLog|..];
        ScanPass(cfg, atStart, pass);
        MalformedGoToInbox(cfg, atStart, pass);
        FailsExactlyIf(cfg, atStart, pass);
        if !err && Validate(cfg) && ScanBoxApart(cfg) {
          SessionIsReached(clt);
          NoErrorUploadsFetched(cfg, Run(clt.world, clt.stage), FetchedMails(pass), MalformedUids(pass));
        }
      }
    }

    // ---- learning ------------------------------------------------------------------------------

    /** The loop over the messages of a learning box. It is left early with the given result, or it
        yields the UIDs to be moved. */
    method LearnMessages(ctx: Context, job: Job, count: nat) returns (early: Option<LearnResult>, processed: seq<nat>)
      requires Valid() && !job.ScanJob?
      requires if clt.world.selected == None then clt.stage == Idle && count == 1 else clt.stage == Learning(job, [])
      modifies clt, ctx
      ensures Valid() && Continues(old(clt.log), clt.log)
      ensures early.Some? ==> EndsAs(early.value, clt.stage) && !early.value.Skipped?
      ensures early.None? ==> clt.stage == Learning(job, processed)
      ensures old(clt.world.selected) == None ==> clt.stage.Idle?
      ensures early == Some(Cancelled) ==> ctx.cancelled
      ensures early == Some(FetchFailed) ==> clt.fetchFailed
    {
      processed := [];
      ghost var log := clt.log;
      var left := count;
      while left > 0
        invariant Valid() && Continues(log, clt.log)
        invariant clt.world.selected == old(clt.world.selected)
        invariant if clt.world.selected == None then clt.stage == Idle && left == 1
                  else clt.stage == Learning(job, processed)
      {
        left := left - 1;
        ghost var before := clt.log;
        var next := clt.Next();
        ContinuesMore(log, before, clt.log);
        if next.End? {
          break;
        }
        var cancelled := ctx.Err();
        if cancelled {
          return Some(Cancelled), processed;
        }
        if next.Failed? {
          return Some(FetchFailed), processed;
        }
        if next.Message? {
          var learned: bool := *;
          if !learned {
            var retryable: bool := *;
            return Some(if retryable then LearnFailed else GaveUp), processed;
          }
          before := clt.log;
          clt.NoteLearned();
          ContinuesMore(log, before, clt.log);
        }
        processed := processed + [next.uid];
      }
      return None, processed;
    }

    /** One learning pass. atLog and atStart: the log and the run right after the SELECT. */
    method Learn(ctx: Context, job: Job) returns (r: LearnResult, ghost atLog: seq<Entry>, ghost atStart: Run)
      requires Valid() && !job.ScanJob? && Enabled(cfg, job)
      modifies clt, ctx
      ensures Valid() && EndsAs(r, clt.stage) && !r.Skipped?
      ensures Continues(atLog, clt.log) && |atLog| == |old(clt.log)| + 1 && OnePass(job, old(clt.log), atLog)
      ensures Exec(cfg, clt.start, atLog) == Some(atStart)
      ensures !clt.stage.Idle? ==> atStart.st == Learning(job, []) && atStart.w.selected == Some(SourceOf(cfg, job))
      ensures (r.Cancelled? ==> ctx.cancelled) && (r.FetchFailed? ==> clt.fetchFailed)
    {
      var count := clt.Messages(job);
      atLog, atStart := clt.log, Run(clt.world, clt.stage);
      var early, processed := LearnMessages(ctx, job, count);
      if early.Some? {
        return early.value, atLog, atStart;
      }
      var cancelled := ctx.Err();
      if cancelled {
        return Cancelled, atLog, atStart;
      }
      r := MoveProcessed(job, processed, atLog);
    }

    /** What follows the loop: nothing, or MarkSeen and one Move. */
    method MoveProcessed(job: Job, processed: seq<nat>, ghost atLog: seq<Entry>) returns (r: LearnResult)
      requires Valid() && clt.stage == Learning(job, processed) && Continues(atLog, clt.log)
      modifies clt
      ensures Valid() && EndsAs(r, clt.stage) && !clt.stage.Idle? && Continues(atLog, clt.log)
      ensures r.NothingToMove? || r.MoveFailed? || r.AllMoved?
    {
      ghost var log := clt.log;
      clt.NoteFetchOver();
      ContinuesMore(atLog, log, clt.log);
      if |processed| == 0 {
        return NothingToMove;
      }
      if job.SpamJob? && cfg.markSeen {
        log := clt.log;
        var _ := clt.MarkSeen(processed);
        ContinuesMore(atLog, log, clt.log);
      }
      log := clt.log;
      MayMoveLearned(cfg, clt.stage);
      var moved := clt.Move(processed, if job.SpamJob? then cfg.spam else cfg.inbox);
      ContinuesMore(atLog, log, clt.log);
      return if moved then AllMoved else MoveFailed;
    }

    /** processHam and processSpam. The entries a pass adds to the log after its SELECT show that it
        was all or nothing. */
    method ProcessLearnBox(ctx: Context, job: Job) returns (r: LearnResult)
      requires Valid() && !job.ScanJob?
      modifies clt, ctx
      ensures Valid()
      ensures r.Skipped? <==> if job.HamJob? then cfg.ham == "" else cfg.undetected == ""
      ensures (r.Cancelled? ==> ctx.cancelled) && (r.FetchFailed? ==> clt.fetchFailed)
      ensures r.Skipped? ==> clt.log == old(clt.log) && clt.world == old(clt.world)
      ensures !r.Skipped? ==>
                && EndsAs(r, clt.stage) && OnePass(job, old(clt.log), clt.log)
                && (clt.stage.Idle? ||
                    (PassInv(cfg, job, clt.log[|old(clt.log)| + 1..], clt.stage)
                     && CommandsAre(cfg, job, clt.log[|old(clt.log)| + 1..])))
    {
      if !Enabled(cfg, job) {
        return Skipped;
      }
      ghost var atLog, atStart;
      r, atLog, atStart := Learn(ctx, job);
      PassAfterOpen(cfg, clt.start, job, old(clt.log), atLog, atStart, clt.log);
      if !clt.stage.Idle? {
        LearnPass(cfg, job, atStart, clt.log[|atLog|..]);
        PassCommands(cfg, job, clt.log[|atLog|..], clt.stage);
      }
    }

    // ---- several passes ------------------------------------------------------------------------

    /** runIMAPPhase as far as it concerns the mailboxes: the phase has a context of its own, and
        that it ended after its deadline is an error too. */
    method ScanPhase(ctx: Context) returns (err: bool)
      requires Valid()
      modifies clt, dir, ctx
      ensures Valid() && NothingLeft(cfg.keepTempFiles, old(dir.files), dir.files)
      ensures (err && clt.log == old(clt.log)) || OnePass(ScanJob, old(clt.log), clt.log)
      ensures !err && Validate(cfg) && ScanBoxApart(cfg) ==>
                UploadedPass(clt.world, clt.log, |old(clt.log)|, |clt.log|)
    {
      var cancelled := ctx.Err();
      if cancelled {
        return true;
      }
      var opCtx := new Context();
      err := ProcessScanBox(opCtx);
      if !err && Validate(cfg) && ScanBoxApart(cfg) {
        UploadedLastPass(clt.world, old(clt.log), clt.log);
      }
      var late: bool := *;
      err := err || late;
    }

    /** An error of the pass is one of the phase, and so are a late end and a phase that is not begun
        (None); a mail that cannot be learned for good is none. */
    method LearnPhase(ctx: Context, job: Job) returns (err: bool, ghost end: Option<LearnResult>, ghost late: bool)
      requires Valid() && !job.ScanJob?
      modifies clt, ctx
      ensures Valid()
      ensures end.None? ==> ctx.cancelled && clt.log == old(clt.log)
      ensures end.Some? ==>
                if Enabled(cfg, job) then OnePass(job, old(clt.log), clt.log) && EndsAs(end.value, clt.stage)
                else end == Some(Skipped) && clt.log == old(clt.log)
      ensures err <==>
                || end.None? || late || end.value.Cancelled? || end.value.FetchFailed?
                || end.value.LearnFailed? || end.value.MoveFailed?
    {
      var cancelled := ctx.Err();
      if cancelled {
        return true, None, false;
      }
      var opCtx := new Context();
      var r := ProcessLearnBox(opCtx, job);
      end := Some(r);
      var overdue: bool := *;
      late := overdue;
      err := overdue || !(r.Skipped? || r.GaveUp? || r.NothingToMove? || r.AllMoved?);
    }

    /** processHam, then processSpam: the common part of the two methods below. */
    method LearnPhases(ctx: Context, ghost plan: seq<Job>, ghost log: seq<Entry>) returns (err: bool)
      requires Valid() && Followed(plan, log, clt.log, false)
      modifies clt, ctx
      ensures Valid() && old(clt.log) <= clt.log
      ensures Followed(plan + LearnJob(cfg, HamJob) + LearnJob(cfg, SpamJob), log, clt.log, err)
      ensures |old(clt.log)| < |clt.log| ==> clt.log[|old(clt.log)|].cmd.Open?
    {
      ghost var log0 := clt.log;
      var hamErr, _, _ := LearnPhase(ctx, HamJob);
      err := hamErr;
      ghost var log1 := clt.log;
      FollowedLearn(cfg, plan, HamJob, log, log0, log1, err);
      if err {
        FollowedFurther(plan + LearnJob(cfg, HamJob), LearnJob(cfg, SpamJob), log, log1);
        return;
      }
      var spamErr, _, _ := LearnPhase(ctx, SpamJob);
      err := spamErr;
      FollowedLearn(cfg, plan + LearnJob(cfg, HamJob), SpamJob, log, log1, clt.log, err);
    }

    /** runOnce: the phases in their order, up to the first error. Without an error all mails fetched
        by its last pass, the one over the scan box, were uploaded, and each once in the whole run. */
    method RunOnce(ctx: Context) returns (err: bool)
      requires Valid()
      modifies clt, dir, ctx
      ensures Valid() && NothingLeft(cfg.keepTempFiles, old(dir.files), dir.files) && old(clt.log) <= clt.log
      ensures Followed(LearnJob(cfg, HamJob) + LearnJob(cfg, SpamJob) + [ScanJob], old(clt.log), clt.log, err)
      ensures !err && Validate(cfg) && ScanBoxApart(cfg) ==>
                exists n: nat :: |old(clt.log)| <= n && UploadedPass(clt.world, clt.log, n, |clt.log|)
    {
      ghost var log, learning := clt.log, LearnJob(cfg, HamJob) + LearnJob(cfg, SpamJob);
      assert Jobs(log) == Jobs(log) + [][..0];
      err := LearnPhases(ctx, [], log);
      assert [] + LearnJob(cfg, HamJob) + LearnJob(cfg, SpamJob) == learning;
      ghost var learnt := clt.log;
      if err {
        FollowedFurther(learning, [ScanJob], log, learnt);
        return;
      }
      err := ScanPhase(ctx);
      FollowedMore(learning, ScanJob, log, learnt, clt.log, err);
    }

    /** runPeriodicPass: without an error the same holds of its first pass, and learning leaves it so. */
    method RunPeriodicPass(ctx: Context) returns (err: bool)
      requires Valid()
      modifies clt, dir, ctx
      ensures Valid() && NothingLeft(cfg.keepTempFiles, old(dir.files), dir.files) && old(clt.log) <= clt.log
      ensures Followed([ScanJob] + LearnJob(cfg, HamJob) + LearnJob(cfg, SpamJob), old(clt.log), clt.log, err)
      ensures !err && Validate(cfg) && ScanBoxApart(cfg) ==>
                exists m: nat :: UploadedPass(clt.world, clt.log, |old(clt.log)|, m)
                                 && (m < |clt.log| ==> clt.log[m].cmd.Open?)
    {
      ghost var log := clt.log;
      assert Jobs(log) == Jobs(log) + [][..0];
      err := ScanPhase(ctx);
      ghost var scanned := clt.log;
      FollowedMore([], ScanJob, log, log, scanned, err);
      assert [] + [ScanJob] == [ScanJob];
      if err {
        FollowedFurther([ScanJob], LearnJob(cfg, HamJob), log, scanned);
        FollowedFurther([ScanJob] + LearnJob(cfg, HamJob), LearnJob(cfg, SpamJob), log, scanned);
        return;
      }
      err := LearnPhases(ctx, [ScanJob], log);
      if Validate(cfg) && ScanBoxApart(cfg) {
        UploadedPassStays(cfg, clt.start, scanned, clt.log, |log|, |scanned|);
      }
    }
  }
}
