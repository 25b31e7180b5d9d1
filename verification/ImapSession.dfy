/** The session with the IMAP server as the pipeline uses it. The server decides freely, within
    what IMAP allows, how each command ends and what other clients do in between. */
module ImapSession {
  import Bytes
  import opened Mailboxes
  import opened PipelineTraces
  import opened Wrappers

  /** What the iterator over the messages of a mailbox yields. */
  datatype Fetch = End | Failed | MalformedMail(uid: nat) | Message(uid: nat, item: Item)

  /** What a Move does to the client's stage. */
  function MovedTo(st: Stage, ok: bool): Stage
    requires st.Replacing? || st.Learnt? || st.Marked?
  {
    match st
    case Replacing(b, n, failed) =>
      if n >= |b.scans| then ScanDone(b, failed || !ok)
      else if ok then Uploading(b, n, failed) else Replacing(b, n + 1, true)
    case _ => LearnDone(st.job, st.uids, ok)
  }

  ghost predicate MayMove(cfg: Config, st: Stage, uids: seq<nat>, dest: string) {
    (st.Replacing? || st.Learnt? || st.Marked?) &&
    forall ok :: NextStage(cfg, st, Move(uids, dest, map[], ok)) == Some(MovedTo(st, ok))
  }

  lemma NoteDoes(cfg: Config, r: Run, c: Command, st: Stage)
    requires (c.Scanned? || c.Learned? || c.FetchOver?) && NextStage(cfg, r.st, c) == Some(st)
    ensures Do(cfg, r, Entry(NOBODY, c)) == Some(Run(r.w, st))
  {
    NobodyChangesNothing(r.w);
  }

  lemma UploadAccepted(cfg: Config, st: Stage, dest: string, copy: Item, at: Option<nat>, ok: bool)
    requires st.Uploading? && st.next < |st.b.scans|
    requires var m := st.b.scans[st.next];
             dest == UploadBox(cfg, m.result) && copy.kind == CopyKind(m.item.kind) && copy.body == Some(m.rw.copy)
    ensures NextStage(cfg, st, PipelineTraces.Upload(dest, copy, at, ok)) ==
            Some(Replacing(st.b, st.next + 1, st.failed || !ok))
  {
  }

  /** The client does not look at the UIDs the moved mails get. */
  lemma SameForAnyUids(cfg: Config, st: Stage, uids: seq<nat>, dest: string, placed: map<nat, nat>, ok: bool)
    ensures NextStage(cfg, st, PipelineTraces.Move(uids, dest, placed, ok)) ==
            NextStage(cfg, st, PipelineTraces.Move(uids, dest, map[], ok))
  {
  }

  lemma {:induction false} IssueDoes(cfg: Config, start: Run, log: seq<Entry>, w: World, st: Stage, e: Entry, w': World,
                                     st': Stage)
    requires Exec(cfg, start, log) == Some(Run(w, st)) && LegalOthers(cfg.scan, w, e.others)
    requires Legal(AfterOthers(w, e.others), e.cmd) && NextStage(cfg, st, e.cmd) == Some(st')
    requires w' == Effect(cfg, AfterOthers(w, e.others), e.cmd)
    ensures Exec(cfg, start, log + [e]) == Some(Run(w', st'))
  {
    ExecSnoc(cfg, start, log, e);
  }

  class Session {
    const cfg: Config
    var world: World

    /** The commands so far, and what they amount to. */
    ghost const start: Run
    ghost var log: seq<Entry>
    ghost var stage: Stage

    /** The iterator over the messages has yielded an error since the last SELECT. */
    ghost var fetchFailed: bool

    /** The state of server and client is the result of a legal run. */
    ghost predicate Valid()
      reads this
    {
      Start(cfg, start) && Exec(cfg, start, log) == Some(Run(world, stage))
    }

    constructor (cfg: Config, world: World)
      requires Start(cfg, Run(world, Idle))
      ensures Valid() && this.cfg == cfg && this.world == world && log == [] && stage == Idle
    {
      this.cfg := cfg;
      this.world := world;
      start := Run(world, Idle);
      log := [];
      stage := Idle;
      fetchFailed := false;
    }

    method AnyOthers() returns (o: Others)
      ensures LegalOthers(cfg.scan, world, o)
    {
      o := *;
      if !LegalOthers(cfg.scan, world, o) {
        o := NOBODY;
      }
    }

    method Issue(o: Others, c: Command)
      requires Valid() && LegalOthers(cfg.scan, world, o) && Legal(AfterOthers(world, o), c)
      requires NextStage(cfg, stage, c).Some?
      modifies this
      ensures Valid() && log == old(log) + [Entry(o, c)]
      ensures Some(stage) == NextStage(cfg, old(stage), c)
      ensures world == Effect(cfg, AfterOthers(old(world), o), c)
      ensures fetchFailed == old(fetchFailed)
    {
      ghost var next := NextStage(cfg, stage, c).value;
      var after := Effect(cfg, AfterOthers(world, o), c);
      IssueDoes(cfg, start, log, world, stage, Entry(o, c), after, next);
      log := log + [Entry(o, c)];
      stage := next;
      world := after;
    }

    /** An event on the client's side. */
    ghost method Note(c: Command, st: Stage)
      requires Valid() && (c.Scanned? || c.Learned? || c.FetchOver?) && NextStage(cfg, stage, c) == Some(st)
      modifies this`log, this`stage
      ensures Valid() && OneMore(old(log), log) && stage == st
    {
      NoteDoes(cfg, Run(world, stage), c, st);
      ExecSnoc(cfg, start, log, Entry(NOBODY, c));
      log := log + [Entry(NOBODY, c)];
      stage := st;
    }

    ghost method NoteLearned()
      requires Valid() && stage.LearnGot?
      modifies this`log, this`stage
      ensures Valid() && OneMore(old(log), log)
      ensures stage == Learning(old(stage).job, old(stage).uids + [old(stage).uid])
    {
      Note(Learned(stage.uid), Learning(stage.job, stage.uids + [stage.uid]));
    }

    /** The loop over the messages is left. */
    ghost method NoteFetchOver()
      requires Valid() && (stage.Fetching? || stage.Got? || stage.Learning?)
      modifies this`log, this`stage
      ensures Valid() && OneMore(old(log), log)
      ensures stage == if old(stage).Learning? then Learnt(old(stage).job, old(stage).uids)
                       else Replacing(old(stage).b, 0, old(stage).Got?)
    {
      Note(FetchOver, if stage.Learning? then Learnt(stage.job, stage.uids) else Replacing(stage.b, 0, stage.Got?));
    }

    /** SELECT, and FETCH of all messages; left bounds what the iterator still yields, which is
        one error if the mailbox cannot be selected. */
    method Messages(job: Job) returns (left: nat)
      requires Valid() && Enabled(cfg, job)
      modifies this
      ensures Valid() && |log| == |old(log)| + 1 && OnePass(job, old(log), log)
      ensures !fetchFailed
      ensures world.selected == None ==> stage == Idle && left == 1
      ensures world.selected != None ==>
                world.selected == Some(SourceOf(cfg, job)) &&
                stage == if job.ScanJob? then Fetching(Batch([], [])) else Learning(job, [])
    {
      var o := AnyOthers();
      var ok: bool := *;
      Issue(o, Open(job, ok));
      fetchFailed := false;
      left := *;
      if !ok {
        left := 1;
      }
    }

    /** The next message, sorted out as fetchNext does. The server may also send nothing more. */
    method Next() returns (n: Fetch)
      requires Valid() && (stage.Fetching? || stage.Learning? || (stage.Idle? && world.selected == None))
      modifies this
      ensures Valid() && world.selected == old(world.selected)
      ensures n.End? || n.Failed? ==> log == old(log) && stage == old(stage)
      ensures fetchFailed == (old(fetchFailed) || n.Failed?)
      ensures old(stage).Idle? ==> n.Failed?
      ensures n.MalformedMail? || n.Message? ==> OneMore(old(log), log)
      ensures n.MalformedMail? ==>
                stage == if old(stage).Fetching?
                         then Fetching(old(stage).b.(malformed := old(stage).b.malformed + [n.uid]))
                         else Learning(old(stage).job, old(stage).uids + [n.uid])
      ensures n.MalformedMail? ==>
                && world.selected.Some? && Slot(world.selected.value, n.uid) in world.mails
                && var m := world.mails[Slot(world.selected.value, n.uid)];
                   m.subject == None || m.body == None || m.body == Some([])
      ensures n.Message? ==>
                && world.selected.Some? && Slot(world.selected.value, n.uid) in world.mails
                && n.item == world.mails[Slot(world.selected.value, n.uid)]
                && n.item.subject != None && n.item.body != None && n.item.body != Some([])
      ensures n.Message? ==>
                stage == if old(stage).Fetching? then Got(old(stage).b, n.uid, n.item)
                         else LearnGot(old(stage).job, old(stage).uids, n.uid)
    {
      if world.selected.None? {
        fetchFailed := true;
        return Failed;
      }
      var over: bool := *;
      if over {
        return End;
      }
      var collectFails: bool := *;
      var uid: nat := *;
      if collectFails || uid == 0 {
        fetchFailed := true;
        return Failed;
      }
      var o := AnyOthers();
      var w := AfterOthers(world, o);
      var slot := Slot(w.selected.value, uid);
      if slot !in w.mails || uid in w.fetched {
        return End;
      }
      if Malformed(w.mails[slot]) {
        Issue(o, FetchedMalformed(uid));
        return MalformedMail(uid);
      }
      n := Message(uid, w.mails[slot]);
      Issue(o, Fetched(uid, w.mails[slot]));
    }

    /** Some of the mails are moved, all of them if the answer is ok. */
    method Move(uids: seq<nat>, dest: string) returns (ok: bool)
      requires Valid() && MayMove(cfg, stage, uids, dest)
      modifies this
      ensures Valid() && world.selected == old(world.selected)
      ensures OneMore(old(log), log) && |old(log)| < |log|
      ensures stage == MovedTo(old(stage), ok) && fetchFailed == old(fetchFailed)
    {
      var o := AnyOthers();
      ok := *;
      var placed: map<nat, nat> := *;
      if !LegalMove(AfterOthers(world, o), uids, dest, placed, ok) {
        ok, placed := false, map[];
      }
      SameForAnyUids(cfg, stage, uids, dest, placed, ok);
      Issue(o, PipelineTraces.Move(uids, dest, placed, ok));
    }

    method MarkSeen(uids: seq<nat>) returns (ok: bool)
      requires Valid() && stage.Learnt? && MarksSeen(cfg, stage.job) && uids == stage.uids != []
      modifies this
      ensures Valid() && world.selected == old(world.selected)
      ensures OneMore(old(log), log)
      ensures stage == Marked(old(stage).job, uids) && fetchFailed == old(fetchFailed)
    {
      var o := AnyOthers();
      ok := *;
      Issue(o, PipelineTraces.MarkSeen(uids, ok));
    }

    /** APPEND; the server reads the subject from the bytes. */
    method Upload(dest: string, kind: Kind, bytes: seq<Bytes.byte>) returns (ok: bool)
      requires Valid() && stage.Uploading?
      requires var m := stage.b.scans[stage.next];
               stage.next < |stage.b.scans| && dest == UploadBox(cfg, m.result)
               && kind == CopyKind(m.item.kind) && bytes == m.rw.copy
      modifies this
      ensures Valid() && world.selected == old(world.selected) && OneMore(old(log), log) && |old(log)| < |log|
      ensures stage == Replacing(old(stage).b, old(stage).next + 1, old(stage).failed || !ok)
      ensures fetchFailed == old(fetchFailed)
    {
      var o := AnyOthers();
      ok := *;
      var at: Option<nat> := *;
      var subject: Option<seq<Bytes.byte>> := *;
      var copy := Item(kind, subject, Some(bytes));
      if !LegalUpload(AfterOthers(world, o), dest, at, ok) {
        ok, at := false, None;
      }
      UploadAccepted(cfg, stage, dest, copy, at, ok);
      Issue(o, PipelineTraces.Upload(dest, copy, at, ok));
    }
  }

  /** So all statements about reachable runs hold of every session. */
  lemma SessionIsReached(s: Session)
    requires s.Valid()
    ensures Reached(s.cfg, Run(s.world, s.stage))
  {
  }
}
