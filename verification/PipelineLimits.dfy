/** Exactly which mailbox configurations give the safety of whole runs: for every other one
    that validate accepts there is a run that loses it. */
module PipelineLimits {
  import opened Bytes
  import opened HeaderInsertion
  import opened HeaderPrinter
  import opened Mailboxes
  import opened PipelineSafety
  import opened PipelineTraces
  import opened ScanHeaders
  import opened ScanRewrite
  import opened Wrappers

  // ---- runs step by step -----------------------------------------------------------------

  lemma ReachedStep(cfg: Config, r: Run, e: Entry)
    requires Reached(cfg, r) && Do(cfg, r, e).Some?
    ensures Reached(cfg, Do(cfg, r, e).value)
  {
    var r0, log :| Start(cfg, r0) && Exec(cfg, r0, log) == Some(r);
    ExecSnoc(cfg, r0, log, e);
  }

  /** The client goes on while nobody else does anything. */
  ghost function Step(cfg: Config, r: Run, c: Command): Option<Run> {
    if !Legal(r.w, c) then None
    else match NextStage(cfg, r.st, c)
      case None => None
      case Some(st) => Some(Run(Effect(cfg, r.w, c), st))
  }

  ghost function Steps(cfg: Config, r: Run, cs: seq<Command>): Option<Run>
    decreases |cs|
  {
    if cs == [] then Some(r)
    else match Step(cfg, r, cs[0])
      case None => None
      case Some(r') => Steps(cfg, r', cs[1..])
  }

  lemma {:induction false} StepsAppend(cfg: Config, r: Run, a: seq<Command>, r1: Run, b: seq<Command>, r2: Run)
    requires Steps(cfg, r, a) == Some(r1) && Steps(cfg, r1, b) == Some(r2)
    ensures Steps(cfg, r, a + b) == Some(r2)
    decreases |a|
  {
    if a == [] {
      assert a + b == b;
    } else {
      assert (a + b)[0] == a[0] && (a + b)[1..] == a[1..] + b;
      StepsAppend(cfg, Step(cfg, r, a[0]).value, a[1..], r1, b, r2);
    }
  }

  lemma {:induction false} StepsReached(cfg: Config, r: Run, cs: seq<Command>, r': Run)
    requires Reached(cfg, r) && Steps(cfg, r, cs) == Some(r')
    ensures Reached(cfg, r')
    decreases |cs|
  {
    if cs != [] {
      var e := Entry(NOBODY, cs[0]);
      NobodyChangesNothing(r.w);
      ReachedStep(cfg, r, e);
      StepsReached(cfg, Do(cfg, r, e).value, cs[1..], r');
    }
  }

  lemma StepsTwo(cfg: Config, r: Run, a: Command, r1: Run, b: Command, r2: Run)
    requires Step(cfg, r, a) == Some(r1) && Step(cfg, r1, b) == Some(r2)
    ensures Steps(cfg, r, [a, b]) == Some(r2)
  {
    assert [a, b][1..] == [b] && [b][1..] == [];
    assert Steps(cfg, r2, [b][1..]) == Some(r2);
    assert Steps(cfg, r1, [a, b][1..]) == Some(r2);
  }

  /** The scan box holds one mail and nothing has happened yet. */
  function OneMail(cfg: Config, item: Item): Run {
    Run(World(map[Slot(cfg.scan, 1) := item], None, {}, {0}, multiset{}), Idle)
  }

  lemma OneMailReaches(cfg: Config, item: Item, cs: seq<Command>, r: Run)
    requires item.kind == Original(0) && Steps(cfg, OneMail(cfg, item), cs) == Some(r)
    ensures Reached(cfg, r)
  {
    var r0 := OneMail(cfg, item);
    assert r0.w.mails[Slot(cfg.scan, 1)].kind == Original(0);
    assert Exec(cfg, r0, []) == Some(r0);
    StepsReached(cfg, r0, cs, r);
  }

  // ---- mails that can be rewritten -----------------------------------------------------------

  /** The score can be printed as a header body. */
  ghost predicate ScorePrints(cfg: Config, score: real) {
    Printable(Header(HDR_RSPAMD_SCORE, cfg.fmt(score)))
  }

  function PlainResult(score: real): CheckResult {
    CheckResult(score, [], [])
  }

  lemma SectionEndsWithCRLF(h: Header, section: seq<byte>)
    requires AsHeadersSpec([h]) == Ok(section)
    ensures |section| >= 2 && section[|section| - 2..] == CRLF
  {
    assert [h][1..] == [];
    assert AsHeadersSpec([h][1..]) == Ok([]);
    AsHeaderAccepts(h);
  }

  /** A mail read in one piece that holds the delimiter can be rewritten. */
  lemma RewritePlain(cfg: Config, item: Item, score: real, p: nat) returns (rw: Rewrite)
    requires ScorePrints(cfg, score) && !Malformed(item) && DelimAt(item.body.value, p)
    ensures RewriteOf(cfg.fmt, item, PlainResult(score), rw)
    ensures !Malformed(Item(item.kind, item.subject, Some(rw.copy))) && exists q: nat :: DelimAt(rw.copy, q)
  {
    var sorted := [Header(HDR_RSPAMD_SCORE, cfg.fmt(score))];
    var chunks := [item.body.value];
    AsHeaderAccepts(sorted[0]);
    AsHeadersAccepts(sorted);
    assert HdrMapSpec(HDR_PREFIX + SYMBOL, [], true, cfg.fmt) == [];
    assert ScanHdrs([], score, cfg.fmt) == sorted;
    assert Flatten(chunks) == item.body.value;
    assert DelimAt(chunks[0], p);
    ChunkedDelimExists(chunks);
    var section := AsHeadersSpec(sorted).value;
    var q := ChunkedDelim(chunks).value;
    rw := Rewrite(item.body.value, chunks, sorted, section, InsertAt(item.body.value, q, section));
    SectionEndsWithCRLF(sorted[0], section);
    assert DelimAt(rw.copy, q + |section|);
  }

  // ---- one pass over one mail -------------------------------------------------------------------

  lemma OpenScan(cfg: Config, r: Run, r1: Run)
    requires r1 == Run(r.w.(selected := Some(cfg.scan), fetched := {}), Fetching(Batch([], [])))
    ensures Step(cfg, r, Open(ScanJob, true)) == Some(r1)
  {
  }

  lemma FetchOne(cfg: Config, r: Run, m: Scan, r1: Run)
    requires r.st == Fetching(Batch([], [])) && r.w.selected == Some(cfg.scan) && r.w.fetched == {}
    requires Holds(r.w.mails, cfg.scan, m.uid, m.item) && !Malformed(m.item)
    requires r1 == Run(r.w.(fetched := {m.uid}), Got(r.st.b, m.uid, m.item))
    ensures Step(cfg, r, Fetched(m.uid, m.item)) == Some(r1)
  {
    assert {} + {m.uid} == {m.uid};
  }

  lemma ScannedOne(cfg: Config, r: Run, m: Scan, r1: Run)
    requires r.st == Got(Batch([], []), m.uid, m.item) && RewriteOf(cfg.fmt, m.item, m.result, m.rw)
    requires r1 == Run(r.w, Fetching(Batch([m], [])))
    ensures Step(cfg, r, Scanned(m)) == Some(r1)
    ensures Step(cfg, r1, FetchOver) == Some(Run(r.w, Replacing(Batch([m], []), 0, false)))
  {
    assert [] + [m] == [m];
  }

  /** The client fetches, scans and rewrites the mail at uid and is about to move it. */
  lemma ScanOne(cfg: Config, r: Run, m: Scan) returns (r': Run, cs: seq<Command>)
    requires Holds(r.w.mails, cfg.scan, m.uid, m.item) && RewriteOf(cfg.fmt, m.item, m.result, m.rw)
    ensures Steps(cfg, r, cs) == Some(r')
    ensures r' == Run(r.w.(selected := Some(cfg.scan), fetched := {m.uid}), Replacing(Batch([m], []), 0, false))
  {
    var r1 := Run(r.w.(selected := Some(cfg.scan), fetched := {}), Fetching(Batch([], [])));
    var r2 := Run(r.w.(selected := Some(cfg.scan), fetched := {m.uid}), Got(Batch([], []), m.uid, m.item));
    var r3 := Run(r2.w, Fetching(Batch([m], [])));
    r' := Run(r2.w, Replacing(Batch([m], []), 0, false));
    OpenScan(cfg, r, r1);
    FetchOne(cfg, r1, m, r2);
    StepsTwo(cfg, r, Open(ScanJob, true), r1, Fetched(m.uid, m.item), r2);
    ScannedOne(cfg, r2, m, r3);
    StepsTwo(cfg, r2, Scanned(m), r3, FetchOver, r');
    cs := [Open(ScanJob, true), Fetched(m.uid, m.item)] + [Scanned(m), FetchOver];
    StepsAppend(cfg, r, [Open(ScanJob, true), Fetched(m.uid, m.item)], r2, [Scanned(m), FetchOver], r');
  }

  lemma MoveOneLegal(w: World, src: string, uid: nat, dest: string, v: nat, ok: bool)
    requires w.selected == Some(src) && Slot(src, uid) in w.mails && Slot(dest, v) !in w.mails
    ensures LegalMove(w, [uid], dest, map[v := uid], ok)
  {
    assert map[v := uid][v] == uid && uid in map[v := uid].Values;
  }

  /** The mail at uid, just scanned, is moved to the backup box. */
  lemma BackupOne(cfg: Config, r: Run, m: Scan, v: nat, ok: bool) returns (r': Run, cs: seq<Command>)
    requires r.st == Replacing(Batch([m], []), 0, false) && r.w.selected == Some(cfg.scan)
    requires Slot(cfg.scan, m.uid) in r.w.mails && Slot(cfg.backup, v) !in r.w.mails
    ensures Steps(cfg, r, cs) == Some(r')
    ensures r'.st == if ok then Uploading(r.st.b, 0, false) else Replacing(r.st.b, 1, true)
    ensures r'.w == r.w.(mails := AfterMove(r.w.mails, cfg.scan, cfg.backup, map[v := m.uid]))
  {
    var c := Move([m.uid], cfg.backup, map[v := m.uid], ok);
    MoveOneLegal(r.w, cfg.scan, m.uid, cfg.backup, v, ok);
    assert map[v := m.uid] != map[] by {
      assert v in map[v := m.uid];
    }
    r' := Step(cfg, r, c).value;
    cs := [c];
    assert Steps(cfg, r', [c][1..]) == Some(r');
  }

  lemma UploadOne(cfg: Config, r: Run, m: Scan, at: nat, copy: Item) returns (r': Run, cs: seq<Command>)
    requires r.st == Uploading(Batch([m], []), 0, false)
    requires copy.kind == CopyKind(m.item.kind) && copy.body == Some(m.rw.copy)
    requires Slot(UploadBox(cfg, m.result), at) !in r.w.mails
    ensures Steps(cfg, r, cs) == Some(r')
    ensures r'.w == AfterUpload(r.w, UploadBox(cfg, m.result), copy, Some(at))
  {
    var c := Upload(UploadBox(cfg, m.result), copy, Some(at), true);
    r' := Step(cfg, r, c).value;
    cs := [c];
    assert Steps(cfg, r', [c][1..]) == Some(r');
  }

  lemma MovedOne(mails: Mails, src: string, dest: string, uid: nat, v: nat)
    requires Slot(src, uid) in mails && Slot(dest, v) !in mails
    ensures Holds(AfterMove(mails, src, dest, map[v := uid]), dest, v, mails[Slot(src, uid)])
    ensures forall s :: s in AfterMove(mails, src, dest, map[v := uid]) ==> s in mails || s == Slot(dest, v)
  {
    assert Slot(dest, v) in Occupied(dest, map[v := uid]);
  }

  /** A whole pass over one mail: it goes to v in the backup box, its copy to the given slot. */
  lemma ProcessOne(cfg: Config, r: Run, m: Scan, v: nat, at: nat, copy: Item) returns (r': Run, cs: seq<Command>)
    requires Holds(r.w.mails, cfg.scan, m.uid, m.item) && RewriteOf(cfg.fmt, m.item, m.result, m.rw)
    requires copy.kind == CopyKind(m.item.kind) == CopyOf(0) && copy.body == Some(m.rw.copy)
    requires v != at && Slot(cfg.backup, v) !in r.w.mails && Slot(UploadBox(cfg, m.result), at) !in r.w.mails
    ensures Steps(cfg, r, cs) == Some(r') && r'.w.attempts == r.w.attempts + multiset{0}
    ensures Holds(r'.w.mails, cfg.backup, v, m.item) && Holds(r'.w.mails, UploadBox(cfg, m.result), at, copy)
    ensures forall s :: s in r'.w.mails ==>
              s in r.w.mails || s == Slot(cfg.backup, v) || s == Slot(UploadBox(cfg, m.result), at)
  {
    var r1, a := ScanOne(cfg, r, m);
    var r2, b := BackupOne(cfg, r1, m, v, true);
    MovedOne(r.w.mails, cfg.scan, cfg.backup, m.uid, v);
    var r3, c := UploadOne(cfg, r2, m, at, copy);
    StepsAppend(cfg, r, a, r1, b, r2);
    StepsAppend(cfg, r, a + b, r2, c, r3);
    r', cs := r3, a + b + c;
  }

  // ---- two uploads for one original ----------------------------------------------------------------

  const FIRST: Item := Item(Original(0), Some([]), Some(CRLF + CRLF))

  lemma FirstRewrites(cfg: Config, score: real) returns (rw: Rewrite)
    requires ScorePrints(cfg, score)
    ensures RewriteOf(cfg.fmt, FIRST, PlainResult(score), rw)
    ensures rw.copy != [] && exists q: nat :: DelimAt(rw.copy, q)
  {
    assert DelimAt(FIRST.body.value, 0);
    rw := RewritePlain(cfg, FIRST, score, 0);
  }

  /** Scan box and backup box are one: the original comes back and is processed again. */
  lemma TwiceIfScanIsBackup(cfg: Config) returns (r: Run, cs: seq<Command>)
    requires Validate(cfg) && ScorePrints(cfg, cfg.threshold) && cfg.scan == cfg.backup
    ensures Steps(cfg, OneMail(cfg, FIRST), cs) == Some(r) && r.w.attempts[0] == 2
  {
    var rw := FirstRewrites(cfg, cfg.threshold);
    var copy := Item(CopyOf(0), None, Some(rw.copy));
    var r0 := OneMail(cfg, FIRST);
    var r1, a := ProcessOne(cfg, r0, Scan(1, FIRST, PlainResult(cfg.threshold), rw), 2, 3, copy);
    var r2, b := ProcessOne(cfg, r1, Scan(2, FIRST, PlainResult(cfg.threshold), rw), 4, 5, copy);
    StepsAppend(cfg, r0, a, r1, b, r2);
    r, cs := r2, a + b;
  }

  lemma ProcessCopy(cfg: Config, r: Run, copy: Item) returns (r': Run, cs: seq<Command>)
    requires ScorePrints(cfg, cfg.threshold) && Holds(r.w.mails, cfg.scan, 3, copy)
    requires forall s :: s in r.w.mails ==> s.uid <= 3
    requires copy.kind == CopyOf(0) && !Malformed(copy) && exists q: nat :: DelimAt(copy.body.value, q)
    ensures Steps(cfg, r, cs) == Some(r') && r'.w.attempts == r.w.attempts + multiset{0}
  {
    var q: nat :| DelimAt(copy.body.value, q);
    var rw := RewritePlain(cfg, copy, cfg.threshold, q);
    var m := Scan(3, copy, PlainResult(cfg.threshold), rw);
    r', cs := ProcessOne(cfg, r, m, 4, 5, Item(CopyOf(0), None, Some(rw.copy)));
  }

  /** Scan box and spam box are one: the copy itself is scanned and uploaded again. */
  lemma TwiceIfScanIsSpam(cfg: Config) returns (r: Run, cs: seq<Command>)
    requires Validate(cfg) && ScorePrints(cfg, cfg.threshold) && cfg.scan == cfg.spam
    ensures Steps(cfg, OneMail(cfg, FIRST), cs) == Some(r) && r.w.attempts[0] == 2
  {
    var rw := FirstRewrites(cfg, cfg.threshold);
    var copy := Item(CopyOf(0), Some([]), Some(rw.copy));
    var r0 := OneMail(cfg, FIRST);
    var r1, a := ProcessOne(cfg, r0, Scan(1, FIRST, PlainResult(cfg.threshold), rw), 2, 3, copy);
    var r2, b := ProcessCopy(cfg, r1, copy);
    StepsAppend(cfg, r0, a, r1, b, r2);
    r, cs := r2, a + b;
  }

  /** At most one upload for each original in every run: exactly the configurations whose scan
      box is neither the backup box nor the spam box have this property. */
  lemma UploadedAtMostOnceIff(cfg: Config)
    requires Validate(cfg) && ScorePrints(cfg, cfg.threshold)
    ensures (forall r, id: nat :: Reached(cfg, r) ==> r.w.attempts[id] <= 1) <==> ScanBoxApart(cfg)
  {
    if ScanBoxApart(cfg) {
      forall r, id: nat | Reached(cfg, r)
        ensures r.w.attempts[id] <= 1
      {
        UploadedAtMostOnce(cfg, r, id);
      }
    } else if cfg.scan == cfg.backup {
      var r, cs := TwiceIfScanIsBackup(cfg);
      OneMailReaches(cfg, FIRST, cs, r);
    } else {
      var r, cs := TwiceIfScanIsSpam(cfg);
      OneMailReaches(cfg, FIRST, cs, r);
    }
  }

  // ---- originals that are taken away by learning -------------------------------------------------------

  lemma StepsOne(cfg: Config, r: Run, c: Command, r': Run)
    requires Step(cfg, r, c) == Some(r')
    ensures Steps(cfg, r, [c]) == Some(r')
  {
    assert Steps(cfg, r', [c][1..]) == Some(r');
  }

  lemma FetchToLearn(cfg: Config, r: Run, job: Job, uid: nat, item: Item, r1: Run)
    requires r.st == Learning(job, []) && r.w.selected.Some? && r.w.fetched == {}
    requires Holds(r.w.mails, r.w.selected.value, uid, item) && !Malformed(item)
    requires r1 == Run(r.w.(fetched := {uid}), LearnGot(job, [], uid))
    ensures Step(cfg, r, Fetched(uid, item)) == Some(r1)
  {
    assert {} + {uid} == {uid};
  }

  /** The mail is learned, or skipped because it is malformed. */
  lemma ReadOne(cfg: Config, r: Run, job: Job, uid: nat, item: Item) returns (r': Run, cs: seq<Command>)
    requires !job.ScanJob? && Enabled(cfg, job) && Holds(r.w.mails, SourceOf(cfg, job), uid, item)
    ensures Steps(cfg, r, cs) == Some(r')
    ensures r' == Run(r.w.(selected := Some(SourceOf(cfg, job)), fetched := {uid}), Learnt(job, [uid]))
  {
    var w1 := r.w.(selected := Some(SourceOf(cfg, job)), fetched := {});
    var r1 := Run(w1, Learning(job, []));
    var r3 := Run(w1.(fetched := {uid}), Learning(job, [uid]));
    r' := Run(r3.w, Learnt(job, [uid]));
    assert [] + [uid] == [uid];
    assert {} + {uid} == {uid};
    if Malformed(item) {
      StepsTwo(cfg, r1, FetchedMalformed(uid), r3, FetchOver, r');
      cs := [FetchedMalformed(uid), FetchOver];
    } else {
      var r2 := Run(r3.w, LearnGot(job, [], uid));
      FetchToLearn(cfg, r1, job, uid, item, r2);
      StepsTwo(cfg, r2, Learned(uid), r3, FetchOver, r');
      cs := [Fetched(uid, item)] + [Learned(uid), FetchOver];
      StepsOne(cfg, r1, Fetched(uid, item), r2);
      StepsAppend(cfg, r1, [Fetched(uid, item)], r2, [Learned(uid), FetchOver], r');
    }
    StepsOne(cfg, r, Open(job, true), r1);
    StepsAppend(cfg, r, [Open(job, true)], r1, cs, r');
    cs := [Open(job, true)] + cs;
  }

  lemma MoveLearned(cfg: Config, r: Run, job: Job, uid: nat, item: Item) returns (r': Run, cs: seq<Command>)
    requires r.st == Learnt(job, [uid]) && r.w.selected == Some(SourceOf(cfg, job))
    requires Holds(r.w.mails, SourceOf(cfg, job), uid, item) && Slot(LearnDest(cfg, job), 3) !in r.w.mails
    ensures Steps(cfg, r, cs) == Some(r') && Holds(r'.w.mails, LearnDest(cfg, job), 3, item)
  {
    var src, dest, placed := SourceOf(cfg, job), LearnDest(cfg, job), map[3 := uid];
    var c := Move([uid], dest, placed, true);
    assert placed[3] == uid && placed != map[];
    MoveOneLegal(r.w, src, uid, dest, 3, true);
    var v := Arrives(r.w.mails, src, dest, placed, uid);
    r' := Run(r.w.(mails := AfterMove(r.w.mails, src, dest, placed)), LearnDone(job, [uid], true));
    if MarksSeen(cfg, job) {
      StepsTwo(cfg, r, MarkSeen([uid], true), Run(r.w, Marked(job, [uid])), c, r');
      cs := [MarkSeen([uid], true), c];
    } else {
      StepsOne(cfg, r, c, r');
      cs := [c];
    }
  }

  /** A whole learning pass over one mail, which ends in slot 3 of the destination. */
  lemma LearnOne(cfg: Config, r: Run, job: Job, uid: nat, item: Item) returns (r': Run, cs: seq<Command>)
    requires !job.ScanJob? && Enabled(cfg, job) && Holds(r.w.mails, SourceOf(cfg, job), uid, item)
    requires Slot(LearnDest(cfg, job), 3) !in r.w.mails
    ensures Steps(cfg, r, cs) == Some(r') && Holds(r'.w.mails, LearnDest(cfg, job), 3, item)
  {
    var r1, a := ReadOne(cfg, r, job, uid, item);
    var r2, b := MoveLearned(cfg, r1, job, uid, item);
    StepsAppend(cfg, r, a, r1, b, r2);
    r', cs := r2, a + b;
  }

  /** The original is in the backup box and is learned from there. */
  lemma LearnedFromBackup(cfg: Config, job: Job) returns (r: Run, cs: seq<Command>)
    requires Validate(cfg) && ScorePrints(cfg, cfg.threshold) && !job.ScanJob? && SourceOf(cfg, job) == cfg.backup
    ensures Steps(cfg, OneMail(cfg, FIRST), cs) == Some(r) && Holds(r.w.mails, LearnDest(cfg, job), 3, FIRST)
  {
    var rw := FirstRewrites(cfg, cfg.threshold);
    var m := Scan(1, FIRST, PlainResult(cfg.threshold), rw);
    var r0 := OneMail(cfg, FIRST);
    var r1, a := ScanOne(cfg, r0, m);
    var r2, b := BackupOne(cfg, r1, m, 2, false);
    StepsAppend(cfg, r0, a, r1, b, r2);
    MovedOne(r0.w.mails, cfg.scan, cfg.backup, 1, 2);
    var r3, c := LearnOne(cfg, r2, job, 2, FIRST);
    StepsAppend(cfg, r0, a + b, r2, c, r3);
    r, cs := r3, a + b + c;
  }

  const BROKEN: Item := Item(Original(0), None, None)

  lemma MoveBroken(cfg: Config, r: Run, r': Run)
    requires r.st == Replacing(Batch([], [1]), 0, false) && r.w.selected == Some(cfg.scan)
    requires Slot(cfg.scan, 1) in r.w.mails && Slot(cfg.inbox, 2) !in r.w.mails
    requires r' == Run(r.w.(mails := AfterMove(r.w.mails, cfg.scan, cfg.inbox, map[2 := 1])), ScanDone(r.st.b, false))
    ensures Step(cfg, r, Move([1], cfg.inbox, map[2 := 1], true)) == Some(r')
  {
    MoveOneLegal(r.w, cfg.scan, 1, cfg.inbox, 2, true);
    assert map[2 := 1][2] == 1 && map[2 := 1] != map[];
  }

  lemma BrokenMoved(cfg: Config, r: Run, cs: seq<Command>) returns (r': Run)
    requires r.st == Fetching(Batch([], [1])) && r.w.selected == Some(cfg.scan)
    requires r.w.mails == map[Slot(cfg.scan, 1) := BROKEN]
    requires cs == [FetchOver, Move([1], cfg.inbox, map[2 := 1], true)]
    ensures Steps(cfg, r, cs) == Some(r')
    ensures Holds(r'.w.mails, cfg.inbox, 2, BROKEN) && forall s :: s in r'.w.mails ==> s.uid <= 2
  {
    var r1 := Run(r.w, Replacing(r.st.b, 0, false));
    MovedOne(r.w.mails, cfg.scan, cfg.inbox, 1, 2);
    r' := Run(r.w.(mails := AfterMove(r.w.mails, cfg.scan, cfg.inbox, map[2 := 1])), ScanDone(r.st.b, false));
    MoveBroken(cfg, r1, r');
    StepsTwo(cfg, r, FetchOver, r1, cs[1], r');
  }

  lemma BrokenFetched(cfg: Config, r: Run, r1: Run, r2: Run)
    requires r.w.mails == map[Slot(cfg.scan, 1) := BROKEN]
    requires r1 == Run(r.w.(selected := Some(cfg.scan), fetched := {}), Fetching(Batch([], [])))
    requires r2 == Run(r1.w.(fetched := {1}), Fetching(Batch([], [1])))
    ensures Steps(cfg, r, [Open(ScanJob, true), FetchedMalformed(1)]) == Some(r2)
  {
    OpenScan(cfg, r, r1);
    assert [] + [1] == [1] && {} + {1} == {1};
    StepsTwo(cfg, r, Open(ScanJob, true), r1, FetchedMalformed(1), r2);
  }

  /** A malformed original is moved to the inbox. */
  lemma BrokenToInbox(cfg: Config, r: Run) returns (r': Run, cs: seq<Command>)
    requires r.w.mails == map[Slot(cfg.scan, 1) := BROKEN]
    ensures Steps(cfg, r, cs) == Some(r')
    ensures Holds(r'.w.mails, cfg.inbox, 2, BROKEN) && forall s :: s in r'.w.mails ==> s.uid <= 2
  {
    var w1 := r.w.(selected := Some(cfg.scan), fetched := {});
    var w2 := w1.(fetched := {1});
    var r1 := Run(w1, Fetching(Batch([], [])));
    var r2 := Run(w2, Fetching(Batch([], [1])));
    BrokenFetched(cfg, r, r1, r2);
    var b := [FetchOver, Move([1], cfg.inbox, map[2 := 1], true)];
    r' := BrokenMoved(cfg, r2, b);
    StepsAppend(cfg, r, [Open(ScanJob, true), FetchedMalformed(1)], r2, b, r');
    cs := [Open(ScanJob, true), FetchedMalformed(1)] + b;
  }

  /** A malformed original is moved to the inbox and then learned from there. */
  lemma LearnedFromInbox(cfg: Config) returns (r: Run, cs: seq<Command>)
    requires Validate(cfg) && cfg.undetected == cfg.inbox != ""
    ensures Steps(cfg, OneMail(cfg, BROKEN), cs) == Some(r) && Holds(r.w.mails, cfg.spam, 3, BROKEN)
  {
    var r0 := OneMail(cfg, BROKEN);
    var r1, a := BrokenToInbox(cfg, r0);
    var r2, b := LearnOne(cfg, r1, SpamJob, 2, BROKEN);
    StepsAppend(cfg, r0, a, r1, b, r2);
    r, cs := r2, a + b;
  }

  /** Originals stay where they belong in every run: exactly the configurations in which learning
      leaves them have this property; a ham or undetected box that is also the backup box, or an
      undetected box that is also the inbox, breaks it unless its mails go to such a box again. */
  lemma OriginalsStayIff(cfg: Config)
    requires Validate(cfg) && ScorePrints(cfg, cfg.threshold)
    ensures (forall r :: Reached(cfg, r) ==> Placed(cfg, r.w.mails)) <==> LearningLeavesOriginals(cfg)
  {
    if LearningLeavesOriginals(cfg) {
      forall r | Reached(cfg, r)
        ensures Placed(cfg, r.w.mails)
      {
        var r0, log :| Start(cfg, r0) && Exec(cfg, r0, log) == Some(r);
        PlacedAlways(cfg, r0, log);
      }
    } else if cfg.ham == cfg.backup {
      var r, cs := LearnedFromBackup(cfg, HamJob);
      OneMailReaches(cfg, FIRST, cs, r);
      assert !AtHome(cfg, cfg.inbox, FIRST);
    } else if cfg.undetected == cfg.backup && cfg.spam != cfg.backup && cfg.spam != cfg.scan {
      var r, cs := LearnedFromBackup(cfg, SpamJob);
      OneMailReaches(cfg, FIRST, cs, r);
      assert !AtHome(cfg, cfg.spam, FIRST);
    } else {
      var r, cs := LearnedFromInbox(cfg);
      OneMailReaches(cfg, BROKEN, cs, r);
      assert !AtHome(cfg, cfg.spam, BROKEN);
    }
  }
}
