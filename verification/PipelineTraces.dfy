/** What the pipeline does with the mailboxes, as traces of commands: processScanBox,
    replaceWithModifiedMails and learn. A trace may end anywhere, so a run that is cut off by
    a cancellation, a timeout or a crash is a trace too, and a new one may begin after it. */
module PipelineTraces {
  import opened Mailboxes
  import opened ScanHeaders
  import opened ScanRewrite
  import opened Wrappers

  datatype Config = Config(scan: string, inbox: string, spam: string, ham: string, backup: string, undetected: string,
                           threshold: real, markSeen: bool, keepTempFiles: bool, fmt: Format)

  /** The part of validate that concerns the mailboxes and the threshold. */
  predicate Validate(cfg: Config) {
    && cfg.threshold > 0.0
    && cfg.scan != cfg.inbox && cfg.scan != cfg.undetected && cfg.scan != cfg.ham
    && cfg.backup != "" && cfg.backup != cfg.inbox
  }

  datatype Job = ScanJob | HamJob | SpamJob

  function SourceOf(cfg: Config, job: Job): string {
    match job case ScanJob => cfg.scan case HamJob => cfg.ham case SpamJob => cfg.undetected
  }

  /** Learning is skipped if its mailbox has no name. */
  predicate Enabled(cfg: Config, job: Job) {
    job.ScanJob? || SourceOf(cfg, job) != ""
  }

  /** Where learned mails go. */
  function LearnDest(cfg: Config, job: Job): string {
    if job.SpamJob? then cfg.spam else cfg.inbox
  }

  predicate MarksSeen(cfg: Config, job: Job) {
    job.SpamJob? && cfg.markSeen
  }

  predicate IsSpam(cfg: Config, result: CheckResult) {
    result.score >= cfg.threshold
  }

  function UploadBox(cfg: Config, result: CheckResult): string {
    if IsSpam(cfg, result) then cfg.spam else cfg.inbox
  }

  /** What the checks are for: a mail without a positive score is never taken for spam, and its copy goes
      neither back to be scanned nor beside its original. */
  lemma CleanMailGoesToInbox(cfg: Config, result: CheckResult)
    requires Validate(cfg) && result.score <= 0.0
    ensures UploadBox(cfg, result) == cfg.inbox != cfg.scan && cfg.inbox != cfg.backup
  {
  }

  /** A mail that was fetched, scanned and rewritten. */
  datatype Scan = Scan(uid: nat, item: Item, result: CheckResult, rw: Rewrite)

  function CopyKind(k: Kind): Kind {
    match k case Original(id) => CopyOf(id) case _ => k
  }

  /** What happens at the mailboxes, and two local events: a mail is scanned or learned. */
  datatype Command =
    | Open(job: Job, ok: bool)                  // SELECT; a new phase begins
    | Fetched(uid: nat, item: Item)
    | FetchedMalformed(uid: nat)
    | Scanned(scan: Scan)
    | Learned(uid: nat)
    | FetchOver                                 // the loop over the messages was left
    | MarkSeen(uids: seq<nat>, ok: bool)
    | Move(uids: seq<nat>, dest: string, placed: map<nat, nat>, ok: bool)
    | Upload(dest: string, copy: Item, at: Option<nat>, ok: bool)

  /** A command, and what other clients did since the last one. */
  datatype Entry = Entry(others: Others, cmd: Command)

  // ---- the server's side ---------------------------------------------------------------

  /** Answers the server can give. A FETCH returns each mail of the selected box at most once. */
  predicate Legal(w: World, c: Command) {
    match c
    case Fetched(uid, item) =>
      w.selected.Some? && Slot(w.selected.value, uid) in w.mails && w.mails[Slot(w.selected.value, uid)] == item
      && !Malformed(item) && uid !in w.fetched
    case FetchedMalformed(uid) =>
      w.selected.Some? && Slot(w.selected.value, uid) in w.mails && Malformed(w.mails[Slot(w.selected.value, uid)])
      && uid !in w.fetched
    case Move(uids, dest, placed, ok) => LegalMove(w, uids, dest, placed, ok)
    case Upload(dest, _, at, ok) => LegalUpload(w, dest, at, ok)
    case _ => true
  }

  function Effect(cfg: Config, w: World, c: Command): World
    requires Legal(w, c)
  {
    match c
    case Open(job, ok) => w.(selected := if ok then Some(SourceOf(cfg, job)) else None, fetched := {})
    case Fetched(uid, _) => w.(fetched := w.fetched + {uid})
    case FetchedMalformed(uid) => w.(fetched := w.fetched + {uid})
    case Move(_, dest, placed, _) =>
      if placed == map[] then w else w.(mails := AfterMove(w.mails, w.selected.value, dest, placed))
    case Upload(dest, copy, at, _) => AfterUpload(w, dest, copy, at)
    case _ => w
  }

  // ---- the client's side -----------------------------------------------------------------

  /** The scanned mails and the UIDs of the malformed ones, in fetch order. */
  datatype Batch = Batch(scans: seq<Scan>, malformed: seq<nat>)

  datatype Stage =
    | Idle
    | Fetching(b: Batch)
    | Got(b: Batch, uid: nat, item: Item)
    | Replacing(b: Batch, next: nat, failed: bool)      // the originals before next are dealt with
    | Uploading(b: Batch, next: nat, failed: bool)      // the original is in the backup box
    | ScanDone(b: Batch, failed: bool)
    | Learning(job: Job, uids: seq<nat>)
    | LearnGot(job: Job, uids: seq<nat>, uid: nat)
    | Learnt(job: Job, uids: seq<nat>)
    | Marked(job: Job, uids: seq<nat>)
    | LearnDone(job: Job, uids: seq<nat>, ok: bool)

  ghost function NextScan(cfg: Config, st: Stage, c: Command): Option<Stage> {
    match c
    case Fetched(uid, item) => if st.Fetching? then Some(Got(st.b, uid, item)) else None
    case FetchedMalformed(uid) =>
      if st.Fetching? then Some(Fetching(st.b.(malformed := st.b.malformed + [uid]))) else None
    case Scanned(m) =>
      if st.Got? && m.uid == st.uid && m.item == st.item && RewriteOf(cfg.fmt, m.item, m.result, m.rw)
      then Some(Fetching(st.b.(scans := st.b.scans + [m]))) else None
    case FetchOver => if st.Fetching? || st.Got? then Some(Replacing(st.b, 0, st.Got?)) else None
    case Move(uids, dest, _, ok) =>
      if !st.Replacing? then None
      else if st.next < |st.b.scans| then
        if uids == [st.b.scans[st.next].uid] && dest == cfg.backup
        then Some(if ok then Uploading(st.b, st.next, st.failed) else Replacing(st.b, st.next + 1, true)) else None
      else if st.next == |st.b.scans| && st.b.malformed != [] && uids == st.b.malformed && dest == cfg.inbox
      then Some(ScanDone(st.b, st.failed || !ok)) else None
    case Upload(dest, copy, _, ok) =>
      if st.Uploading? && st.next < |st.b.scans| && dest == UploadBox(cfg, st.b.scans[st.next].result)
         && copy.kind == CopyKind(st.b.scans[st.next].item.kind) && copy.body == Some(st.b.scans[st.next].rw.copy)
      then Some(Replacing(st.b, st.next + 1, st.failed || !ok)) else None
    case _ => None
  }

  predicate LearnStage(st: Stage) {
    st.Learning? || st.LearnGot? || st.Learnt? || st.Marked? || st.LearnDone?
  }

  ghost function NextLearn(cfg: Config, st: Stage, c: Command): Option<Stage>
    requires LearnStage(st)
  {
    match c
    case Fetched(uid, _) => if st.Learning? then Some(LearnGot(st.job, st.uids, uid)) else None
    case FetchedMalformed(uid) => if st.Learning? then Some(Learning(st.job, st.uids + [uid])) else None
    case Learned(uid) => if st.LearnGot? && uid == st.uid then Some(Learning(st.job, st.uids + [uid])) else None
    case FetchOver => if st.Learning? then Some(Learnt(st.job, st.uids)) else None
    case MarkSeen(uids, _) =>
      if st.Learnt? && MarksSeen(cfg, st.job) && uids == st.uids != [] then Some(Marked(st.job, st.uids)) else None
    case Move(uids, dest, _, ok) =>
      if (st.Marked? || (st.Learnt? && !MarksSeen(cfg, st.job)))
         && uids == st.uids != [] && dest == LearnDest(cfg, st.job)
      then Some(LearnDone(st.job, st.uids, ok)) else None
    case _ => None
  }

  /** A phase can be given up anywhere, and the next one begins with a SELECT. */
  ghost function NextStage(cfg: Config, st: Stage, c: Command): Option<Stage> {
    if c.Open? then
      if !Enabled(cfg, c.job) then None
      else Some(if !c.ok then Idle else if c.job.ScanJob? then Fetching(Batch([], [])) else Learning(c.job, []))
    else if LearnStage(st) then NextLearn(cfg, st, c)
    else NextScan(cfg, st, c)
  }

  // ---- both ---------------------------------------------------------------------------------

  datatype Run = Run(w: World, st: Stage)

  ghost function Do(cfg: Config, r: Run, e: Entry): Option<Run> {
    if !LegalOthers(cfg.scan, r.w, e.others) then None
    else
      var w := AfterOthers(r.w, e.others);
      if !Legal(w, e.cmd) then None
      else match NextStage(cfg, r.st, e.cmd)
        case None => None
        case Some(st) => Some(Run(Effect(cfg, w, e.cmd), st))
  }

  ghost function Exec(cfg: Config, r0: Run, log: seq<Entry>): Option<Run> {
    if log == [] then Some(r0)
    else match Exec(cfg, r0, log[..|log| - 1])
      case None => None
      case Some(r) => Do(cfg, r, log[|log| - 1])
  }

  lemma ExecSnoc(cfg: Config, r0: Run, log: seq<Entry>, e: Entry)
    ensures Exec(cfg, r0, log + [e]) == match Exec(cfg, r0, log) case None => None case Some(r) => Do(cfg, r, e)
  {
    assert (log + [e])[..|log + [e]| - 1] == log;
  }

  /** The stage before the last entry of a log. */
  lemma {:induction false} LastStage(cfg: Config, r: Run, log: seq<Entry>) returns (before: seq<Entry>, st: Stage)
    requires log != [] && Exec(cfg, r, log).Some?
    ensures before == log[..|log| - 1] && Exec(cfg, r, before).Some? && Exec(cfg, r, before).value.st == st
    ensures NextStage(cfg, st, log[|log| - 1].cmd) == Some(Exec(cfg, r, log).value.st)
  {
    before := log[..|log| - 1];
    st := Exec(cfg, r, before).value.st;
  }

  /** No new phase begins. */
  ghost predicate SamePhase(log: seq<Entry>) {
    forall k :: 0 <= k < |log| ==> !log[k].cmd.Open?
  }

  /** The log got one more entry, which does not begin a new phase. */
  ghost predicate OneMore(log: seq<Entry>, log': seq<Entry>) {
    |log'| == |log| + 1 && log'[..|log|] == log && !log'[|log|].cmd.Open?
  }

  /** The log was continued without a new phase. */
  ghost predicate Continues(log: seq<Entry>, log': seq<Entry>) {
    |log| <= |log'| && log'[..|log|] == log && forall k :: |log| <= k < |log'| ==> !log'[k].cmd.Open?
  }

  lemma ContinuesTrans(log: seq<Entry>, log1: seq<Entry>, log2: seq<Entry>)
    requires Continues(log, log1) && Continues(log1, log2)
    ensures Continues(log, log2)
  {
    assert log2[..|log|] == log1[..|log|];
    forall k | |log| <= k < |log2|
      ensures !log2[k].cmd.Open?
    {
      if k < |log1| {
        assert log2[k] == log1[k];
      }
    }
  }

  lemma ContinuesMore(log: seq<Entry>, log1: seq<Entry>, log2: seq<Entry>)
    requires Continues(log, log1) && (log2 == log1 || OneMore(log1, log2))
    ensures Continues(log, log2)
  {
    if log2 != log1 {
      ContinuesTrans(log, log1, log2);
    }
  }

  lemma {:induction false} ExecAppend(cfg: Config, r0: Run, a: seq<Entry>, r1: Run, b: seq<Entry>)
    requires Exec(cfg, r0, a) == Some(r1)
    ensures Exec(cfg, r0, a + b) == Exec(cfg, r1, b)
    decreases |b|
  {
    if b == [] {
      assert a + b == a;
    } else {
      var init, e := b[..|b| - 1], b[|b| - 1];
      ExecAppend(cfg, r0, a, r1, init);
      ExecSnoc(cfg, r0, a + init, e);
      assert a + b == a + init + [e];
    }
  }

  /** The log was continued by one phase for the given job: its SELECT, and no other. */
  ghost predicate OnePass(job: Job, log: seq<Entry>, log': seq<Entry>) {
    && |log| < |log'| && log'[..|log|] == log
    && log'[|log|].cmd.Open? && log'[|log|].cmd.job == job && SamePhase(log'[|log| + 1..])
  }

  /** The jobs of the phases in the log, in order. */
  function Jobs(log: seq<Entry>): seq<Job> {
    if log == [] then []
    else
      var c := log[|log| - 1].cmd;
      Jobs(log[..|log| - 1]) + if c.Open? then [c.job] else []
  }

  lemma {:induction false} JobsOfPass(job: Job, log: seq<Entry>, log': seq<Entry>)
    requires OnePass(job, log, log')
    ensures Jobs(log') == Jobs(log) + [job]
    decreases |log'|
  {
    var n := |log'| - 1;
    if n == |log| {
      assert log'[..n] == log;
    } else {
      assert log'[n] == log'[|log| + 1..][n - |log| - 1];
      assert log'[..n][|log| + 1..] == log'[|log| + 1..][..n - |log| - 1];
      assert log'[..n][..|log|] == log;
      JobsOfPass(job, log, log'[..n]);
    }
  }

  /** What a pass adds to the log after its SELECT is a run of its own. */
  lemma {:induction false} PassAfterOpen(cfg: Config, r0: Run, job: Job, log: seq<Entry>, atLog: seq<Entry>,
                                         r1: Run, log': seq<Entry>)
    requires OnePass(job, log, atLog) && |atLog| == |log| + 1 && Continues(atLog, log')
    requires Exec(cfg, r0, atLog) == Some(r1)
    ensures OnePass(job, log, log')
    ensures Exec(cfg, r1, log'[|log| + 1..]) == Exec(cfg, r0, log')
  {
    var pass := log'[|log| + 1..];
    assert log'[..|log|] == log'[..|atLog|][..|log|];
    assert log'[|log|] == log'[..|atLog|][|log|];
    assert log' == atLog + pass;
    ExecAppend(cfg, r0, atLog, r1, pass);
    forall k | 0 <= k < |pass|
      ensures !pass[k].cmd.Open?
    {
      assert pass[k] == log'[|atLog| + k];
    }
  }

  /** No mail was uploaded yet, and all originals are still in the scan box. */
  ghost predicate Start(cfg: Config, r: Run) {
    && r.st == Idle && r.w.attempts == multiset{}
    && (forall s :: s in r.w.mails ==> (s.box == cfg.scan <==> r.w.mails[s].kind.Original?))
    && (forall s, t :: s in r.w.mails && t in r.w.mails && s.box == cfg.scan ==>
          (r.w.mails[s].kind == r.w.mails[t].kind ==> s == t))
    && (forall id :: id in r.w.delivered <==> exists s :: s in r.w.mails && r.w.mails[s].kind == Original(id))
  }

  /** r occurs in some run of the pipeline. */
  ghost predicate Reached(cfg: Config, r: Run) {
    exists r0, log :: Start(cfg, r0) && Exec(cfg, r0, log) == Some(r)
  }
}
