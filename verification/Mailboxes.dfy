/** The mailboxes on the server, what IMAP commands do to them, and what other clients may do. */
module Mailboxes {
  import opened Bytes
  import opened Wrappers

  /** Where a mail comes from: delivered into the scan box, uploaded in place of such a mail,
      or anything else. */
  datatype Kind = Original(id: nat) | CopyOf(id: nat) | Foreign

  /** What FETCH returns of a mail: the subject of its envelope and its body section. */
  datatype Item = Item(kind: Kind, subject: Option<seq<byte>>, body: Option<seq<byte>>)

  /** fetchNext: no envelope, no body section, or an empty one. */
  predicate Malformed(i: Item) {
    i.subject.None? || i.body.None? || i.body.value == []
  }

  datatype Slot = Slot(box: string, uid: nat)
  type Mails = map<Slot, Item>

  /** fetched: UIDs the current FETCH has returned. For the statements about whole runs:
      delivered: the originals so far; attempts: an upload was attempted for these. */
  datatype World = World(mails: Mails, selected: Option<string>, fetched: set<nat>,
                         delivered: set<nat>, attempts: multiset<nat>)

  // ---- other clients ---------------------------------------------------------------

  datatype Others = Others(added: Mails, removed: set<Slot>)

  const NOBODY := Others(map[], {})

  /** Deliveries into the scan box are new originals. Nobody else removes mails from the scan
      box, or touches an original in another box; all else is free. */
  predicate LegalOthers(scan: string, w: World, o: Others) {
    && (forall s :: s in o.removed ==> s.box != scan && (s in w.mails ==> !w.mails[s].kind.Original?))
    && (forall s :: s in o.added ==>
          s !in w.mails && (s.box == scan <==> o.added[s].kind.Original?)
          && (s.box == scan ==> o.added[s].kind.id !in w.delivered))
    && (forall s, t :: s in o.added && t in o.added && o.added[s].kind.Original? ==>
          (o.added[s].kind == o.added[t].kind ==> s == t))
  }

  function AfterOthers(w: World, o: Others): World {
    w.(mails := (w.mails - o.removed) + o.added,
       delivered := w.delivered + set s | s in o.added && o.added[s].kind.Original? :: o.added[s].kind.id)
  }

  lemma NobodyChangesNothing(w: World)
    ensures AfterOthers(w, NOBODY) == w
  {
    assert AfterOthers(w, NOBODY).mails == w.mails;
  }

  // ---- MOVE and APPEND -----------------------------------------------------------------

  /** placed maps the new UIDs in the destination to the old ones. Each mail is moved as a whole
      or not at all; a command that fails may have moved any of the mails. */
  predicate LegalMove(w: World, uids: seq<nat>, dest: string, placed: map<nat, nat>, ok: bool) {
    && (placed != map[] ==> w.selected.Some?)
    && (forall v :: v in placed ==>
          placed[v] in uids && Slot(w.selected.value, placed[v]) in w.mails && Slot(dest, v) !in w.mails)
    && (forall u, v :: u in placed && v in placed && placed[u] == placed[v] ==> u == v)
    && (ok ==> w.selected.Some? && forall u :: u in uids && Slot(w.selected.value, u) in w.mails ==> u in placed.Values)
  }

  function Vacated(src: string, placed: map<nat, nat>): set<Slot> {
    set v | v in placed :: Slot(src, placed[v])
  }

  function Occupied(dest: string, placed: map<nat, nat>): set<Slot> {
    set v | v in placed :: Slot(dest, v)
  }

  function AfterMove(mails: Mails, src: string, dest: string, placed: map<nat, nat>): Mails
    requires forall v :: v in placed ==> Slot(src, placed[v]) in mails
  {
    map s | s in mails.Keys - Vacated(src, placed) + Occupied(dest, placed) ::
      if s in Occupied(dest, placed) then mails[Slot(src, placed[s.uid])] else mails[s]
  }

  predicate LegalUpload(w: World, dest: string, at: Option<nat>, ok: bool) {
    (ok ==> at.Some?) && (at.Some? ==> Slot(dest, at.value) !in w.mails)
  }

  /** The copy is stored at the given UID, or not at all. */
  function AfterUpload(w: World, dest: string, copy: Item, at: Option<nat>): World {
    w.(mails := if at.Some? then w.mails[Slot(dest, at.value) := copy] else w.mails,
       attempts := if copy.kind.CopyOf? then w.attempts + multiset{copy.kind.id} else w.attempts)
  }

  // ---- how mails move about ---------------------------------------------------------------

  ghost predicate Holds(mails: Mails, box: string, uid: nat, item: Item) {
    Slot(box, uid) in mails && mails[Slot(box, uid)] == item
  }

  /** Some slot of the box holds this very mail. */
  ghost predicate InBox(mails: Mails, box: string, item: Item) {
    exists u :: Holds(mails, box, u, item)
  }

  /** A mail after MOVE was there before, in the same slot or in the one it was moved from. */
  function CameFrom(src: string, dest: string, placed: map<nat, nat>, s: Slot): Slot {
    if s.box == dest && s.uid in placed then Slot(src, placed[s.uid]) else s
  }

  lemma MovedFrom(mails: Mails, src: string, dest: string, placed: map<nat, nat>, s: Slot)
    requires forall v :: v in placed ==> Slot(src, placed[v]) in mails
    requires s in AfterMove(mails, src, dest, placed)
    ensures var o := CameFrom(src, dest, placed, s);
            o in mails && AfterMove(mails, src, dest, placed)[s] == mails[o]
    ensures (s.box == dest && s.uid in placed) || s !in Vacated(src, placed)
  {
    assert s in Occupied(dest, placed) <==> s.box == dest && s.uid in placed;
  }

  /** Two mails never come from one slot. */
  lemma CameFromApart(mails: Mails, src: string, dest: string, placed: map<nat, nat>, s: Slot, t: Slot)
    requires forall v :: v in placed ==> Slot(src, placed[v]) in mails
    requires forall u, v :: u in placed && v in placed && placed[u] == placed[v] ==> u == v
    requires s in AfterMove(mails, src, dest, placed) && t in AfterMove(mails, src, dest, placed)
    requires CameFrom(src, dest, placed, s) == CameFrom(src, dest, placed, t)
    ensures s == t
  {
    MovedFrom(mails, src, dest, placed, s);
    MovedFrom(mails, src, dest, placed, t);
    if t !in Vacated(src, placed) && s.box == dest && s.uid in placed {
      assert Slot(src, placed[s.uid]) in Vacated(src, placed);
    }
    if s !in Vacated(src, placed) && t.box == dest && t.uid in placed {
      assert Slot(src, placed[t.uid]) in Vacated(src, placed);
    }
  }

  lemma Stays(mails: Mails, src: string, dest: string, placed: map<nat, nat>, s: Slot)
    requires forall v :: v in placed ==> Slot(src, placed[v]) in mails && Slot(dest, v) !in mails
    requires s in mails && !(s.box == src && s.uid in placed.Values)
    ensures s in AfterMove(mails, src, dest, placed) && AfterMove(mails, src, dest, placed)[s] == mails[s]
  {
    assert s !in Occupied(dest, placed);
  }

  lemma Arrives(mails: Mails, src: string, dest: string, placed: map<nat, nat>, u: nat) returns (v: nat)
    requires forall v :: v in placed ==> Slot(src, placed[v]) in mails
    requires u in placed.Values
    ensures v in placed && placed[v] == u
    ensures Holds(AfterMove(mails, src, dest, placed), dest, v, mails[Slot(src, u)])
  {
    v :| v in placed && placed[v] == u;
    assert Slot(dest, v) in Occupied(dest, placed);
  }

  /** A successful MOVE of one mail puts this very mail into the destination. */
  lemma MoveOnePutsItThere(w: World, src: string, uid: nat, item: Item, dest: string, placed: map<nat, nat>)
    requires w.selected == Some(src) && LegalMove(w, [uid], dest, placed, true) && Holds(w.mails, src, uid, item)
    ensures InBox(AfterMove(w.mails, src, dest, placed), dest, item)
    ensures src != dest ==> Slot(src, uid) !in AfterMove(w.mails, src, dest, placed)
  {
    assert uid in [uid];
    var v := Arrives(w.mails, src, dest, placed, uid);
    assert Slot(src, uid) in Vacated(src, placed);
  }
}
