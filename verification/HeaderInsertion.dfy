/** Inserting header lines into a mail that is read in chunks (addHeaders).
    Each read is searched for the blank line on its own, so the way the reader cuts
    the mail is a parameter here. */
module HeaderInsertion {
  import opened Bytes
  import opened HeaderPrinter
  import opened Wrappers

  datatype InsertError = HeaderEndNotFound | ReadFailed
  type Inserted = Result<seq<byte>, InsertError>

  /** The whole-mail operation: hdrs go between the last header line and the blank line. */
  function InsertAt(mail: seq<byte>, p: nat, hdrs: seq<byte>): seq<byte>
    requires p + 2 <= |mail|
  {
    mail[..p + 2] + hdrs + mail[p + 2..]
  }

  /** The offset in the whole mail at which the chunk-by-chunk search stops. */
  function ChunkedDelim(chunks: seq<seq<byte>>): (r: Option<nat>)
    ensures r.Some? ==> DelimAt(Flatten(chunks), r.value)
  {
    if chunks == [] then None
    else match IndexDelim(chunks[0])
      case Some(q) => Some(q)
      case None =>
        match ChunkedDelim(chunks[1..])
        case None => None
        case Some(p) =>
          assert DelimAt(Flatten(chunks[1..]), p);
          Some(|chunks[0]| + p)
  }

  function AddHeadersSpec(chunks: seq<seq<byte>>, readFails: bool, hdrs: seq<byte>): Inserted {
    match ChunkedDelim(chunks)
    case None => Err(if readFails then ReadFailed else HeaderEndNotFound)
    case Some(p) => if readFails then Err(ReadFailed) else Ok(InsertAt(Flatten(chunks), p, hdrs))
  }

  lemma InsertBetween(mail: seq<byte>, head: seq<byte>, h: seq<byte>, buf: seq<byte>, rest: seq<byte>)
    requires |head| >= 2 && mail == head + buf + rest
    ensures InsertAt(mail, |head| - 2, h) == head + h + buf + rest
  {
    assert mail[..|head|] == head && mail[|head|..] == buf + rest;
  }

  ghost function Shifted(n: nat, p: Option<nat>): Option<nat> {
    match p case None => None case Some(q) => Some(n + q)
  }

  lemma SplitSeq<T>(s: seq<T>, i: nat)
    requires i <= |s|
    ensures s == s[..i] + s[i..]
  {
  }

  lemma {:induction false} SplitAtRead(chunks: seq<seq<byte>>, i: nat)
    requires i < |chunks|
    ensures chunks[i..] == [chunks[i]] + chunks[i + 1..]
    ensures chunks[i..][1..] == chunks[i + 1..]
    ensures Flatten(chunks[..i + 1]) == Flatten(chunks[..i]) + chunks[i]
    ensures Flatten(chunks) == Flatten(chunks[..i]) + chunks[i] + Flatten(chunks[i + 1..])
  {
    SliceSnoc(chunks, 0, i + 1);
    FlattenSnoc(chunks[..i], chunks[i]);
    SplitSeq(chunks, i + 1);
    FlattenAppend(chunks[..i + 1], chunks[i + 1..]);
  }

  /** The search has passed over the first i reads, which make up out. */
  ghost predicate PassedOver(chunks: seq<seq<byte>>, i: nat, out: seq<byte>) {
    && i <= |chunks| && out == Flatten(chunks[..i])
    && ChunkedDelim(chunks) == Shifted(|out|, ChunkedDelim(chunks[i..]))
  }

  /** The delimiter starts behind out, and buf and the reads from i on follow its first CRLF. */
  ghost predicate FoundBehind(chunks: seq<seq<byte>>, i: nat, out: seq<byte>, buf: seq<byte>) {
    && i <= |chunks| && ChunkedDelim(chunks) == Some(|out|)
    && out + CRLF + buf + Flatten(chunks[i..]) == Flatten(chunks)
  }

  lemma {:induction false} NotInThisRead(chunks: seq<seq<byte>>, i: nat, out: seq<byte>)
    requires i < |chunks| && PassedOver(chunks, i, out) && IndexDelim(chunks[i]).None?
    ensures PassedOver(chunks, i + 1, out + chunks[i])
  {
    SplitAtRead(chunks, i);
  }

  lemma CutAtDelim(a: seq<byte>, x: seq<byte>, q: nat, b: seq<byte>)
    requires q + 2 <= |x| && x[q] == CR && x[q + 1] == LF
    ensures (a + x[..q]) + CRLF + x[q + 2..] + b == a + x + b
  {
    assert x == x[..q] + CRLF + x[q + 2..];
    assert (a + x[..q]) + CRLF + x[q + 2..] == a + (x[..q] + CRLF + x[q + 2..]);
  }

  lemma {:induction false} FoundInThisRead(chunks: seq<seq<byte>>, i: nat, out: seq<byte>, q: nat)
    requires i < |chunks| && PassedOver(chunks, i, out) && IndexDelim(chunks[i]) == Some(q)
    ensures FoundBehind(chunks, i + 1, out + chunks[i][..q], chunks[i][q + 2..])
  {
    SplitAtRead(chunks, i);
    CutAtDelim(out, chunks[i], q, Flatten(chunks[i + 1..]));
  }

  /** Reads are handed over one by one; after the last one the reader reports the end of
      the file or, when readFails is set, an error. */
  method AddHeaders(chunks: seq<seq<byte>>, readFails: bool, hdrs: seq<byte>) returns (r: Inserted)
    ensures r == AddHeadersSpec(chunks, readFails, hdrs)
  {
    var out: seq<byte> := [];
    var buf: seq<byte> := [];
    var i := 0;
    var found := false;
    while !found
      invariant i <= |chunks|
      invariant if found then FoundBehind(chunks, i, out, buf) else PassedOver(chunks, i, out)
      decreases !found, |chunks| - i
    {
      if i == |chunks| {
        return Err(if readFails then ReadFailed else HeaderEndNotFound);
      }
      var chunk := chunks[i];
      var idx := IndexDelim(chunk);
      if idx.Some? {
        FoundInThisRead(chunks, i, out, idx.value);
        out := out + chunk[..idx.value];
        // two bytes further: the CRLF of the last header line is written again below
        buf := chunk[idx.value + 2..];
        found := true;
      } else {
        NotInThisRead(chunks, i, out);
        out := out + chunk;
      }
      i := i + 1;
    }
    out := out + CRLF;
    InsertBetween(Flatten(chunks), out, hdrs, buf, Flatten(chunks[i..]));
    out := out + hdrs;
    out := out + buf;
    if readFails {
      return Err(ReadFailed);
    }
    return Ok(out + Flatten(chunks[i..]));
  }

  // ---- what the chunked search finds ------------------------------------------

  /** Succeeds exactly when some single read holds the whole delimiter. */
  lemma {:induction false} ChunkedDelimExists(chunks: seq<seq<byte>>)
    ensures ChunkedDelim(chunks).Some? <==> exists k, q :: 0 <= k < |chunks| && DelimAt(chunks[k], q)
  {
    if chunks != [] {
      ChunkedDelimExists(chunks[1..]);
      if ChunkedDelim(chunks[1..]).Some? {
        var k, q :| 0 <= k < |chunks[1..]| && DelimAt(chunks[1..][k], q);
        assert DelimAt(chunks[k + 1], q);
      }
      if k, q :| 0 <= k < |chunks| && DelimAt(chunks[k], q) {
        if k > 0 {
          assert DelimAt(chunks[1..][k - 1], q);
        }
      }
    }
  }

  /** The bytes 13, 10, 13, 10 occur in s. */
  ghost predicate HoldsBlankLine(s: seq<byte>) {
    exists q :: 0 <= q < |s| - 3 && s[q] == 13 && s[q + 1] == 10 && s[q + 2] == 13 && s[q + 3] == 10
  }

  /** The outcome in terms of these bytes: without a read error the call succeeds exactly when some
      read holds them, and fails with HeaderEndNotFound otherwise. */
  lemma {:induction false} InsertsIffSomeReadHolds(chunks: seq<seq<byte>>, hdrs: seq<byte>)
    ensures AddHeadersSpec(chunks, false, hdrs).Ok? <==> exists k :: 0 <= k < |chunks| && HoldsBlankLine(chunks[k])
    ensures AddHeadersSpec(chunks, false, hdrs).Err? ==> AddHeadersSpec(chunks, false, hdrs) == Err(HeaderEndNotFound)
    ensures ChunkedDelim(chunks).Some? ==> AddHeadersSpec(chunks, true, hdrs) == Err(ReadFailed)
  {
    ChunkedDelimExists(chunks);
    if k, q :| 0 <= k < |chunks| && DelimAt(chunks[k], q) {
      assert HoldsBlankLine(chunks[k]);
    }
    if k :| 0 <= k < |chunks| && HoldsBlankLine(chunks[k]) {
      var s := chunks[k];
      var q :| 0 <= q < |s| - 3 && s[q] == 13 && s[q + 1] == 10 && s[q + 2] == 13 && s[q + 3] == 10;
      assert DelimAt(chunks[k], q);
    }
  }

  /** The delimiter at p lies within one of the reads. */
  ghost predicate WithinOneRead(chunks: seq<seq<byte>>, p: int)
    decreases |chunks|
  {
    chunks != [] && 0 <= p &&
    if p < |chunks[0]| then p + 4 <= |chunks[0]| else WithinOneRead(chunks[1..], p - |chunks[0]|)
  }

  /** Every delimiter before p is cut by a read boundary. */
  ghost predicate AllCutBefore(chunks: seq<seq<byte>>, p: int) {
    forall q :: q < p && DelimAt(Flatten(chunks), q) ==> !WithinOneRead(chunks, q)
  }

  lemma AllCutShift(chunks: seq<seq<byte>>, p: nat)
    requires chunks != [] && |chunks[0]| <= p
    requires NoDelim(chunks[0])
    ensures AllCutBefore(chunks, p) <==> AllCutBefore(chunks[1..], p - |chunks[0]|)
  {
    var s, n, rest := Flatten(chunks), |chunks[0]|, Flatten(chunks[1..]);
    if AllCutBefore(chunks, p) {
      forall q | q < p - n && DelimAt(rest, q)
        ensures !WithinOneRead(chunks[1..], q)
      {
        assert DelimAt(s, q + n);
      }
    }
    if AllCutBefore(chunks[1..], p - n) {
      forall q | q < p && DelimAt(s, q)
        ensures !WithinOneRead(chunks, q)
      {
        assert !DelimAt(chunks[0], q);
        if n <= q {
          assert DelimAt(rest, q - n);
        }
      }
    }
  }

  /** The search stops at the first delimiter of the mail that no read boundary cuts. */
  lemma {:induction false} ChunkedDelimIsFirstUncut(chunks: seq<seq<byte>>, p: nat)
    ensures ChunkedDelim(chunks) == Some(p) <==>
            DelimAt(Flatten(chunks), p) && WithinOneRead(chunks, p) &&
            AllCutBefore(chunks, p)
    decreases |chunks|
  {
    if chunks != [] {
      var s, n, rest := Flatten(chunks), |chunks[0]|, Flatten(chunks[1..]);
      assert forall q :: DelimAt(chunks[0], q) <==> q + 4 <= n && DelimAt(s, q);
      assert forall q :: n <= q ==> (DelimAt(s, q) <==> DelimAt(rest, q - n));
      match IndexDelim(chunks[0]) {
        case Some(q0) =>
          assert DelimAt(s, q0) && WithinOneRead(chunks, q0);
        case None =>
          assert forall q :: DelimAt(s, q) && q < n ==> !WithinOneRead(chunks, q);
          if n <= p {
            ChunkedDelimIsFirstUncut(chunks[1..], p - n);
            AllCutShift(chunks, p);
          }
      }
    }
  }

  /** A delimiter within one read is never passed over. */
  lemma {:induction false} SearchStopsBy(chunks: seq<seq<byte>>, q: nat) returns (p: nat)
    requires DelimAt(Flatten(chunks), q) && WithinOneRead(chunks, q)
    ensures p <= q && ChunkedDelim(chunks) == Some(p)
    decreases |chunks|
  {
    var n := |chunks[0]|;
    match IndexDelim(chunks[0]) {
      case Some(q0) =>
        assert q < n ==> DelimAt(chunks[0], q);
        p := q0;
      case None =>
        if q < n {
          assert DelimAt(chunks[0], q);
        }
        assert DelimAt(Flatten(chunks[1..]), q - n);
        p := SearchStopsBy(chunks[1..], q - n);
        p := n + p;
    }
  }

  /** With an intact reader the result is the whole-mail insertion at the first delimiter
      exactly when that delimiter is not cut by a read boundary. */
  lemma InsertsAtFirstDelim(chunks: seq<seq<byte>>, hdrs: seq<byte>, p: nat)
    requires IsFirstDelim(Flatten(chunks), p)
    ensures ChunkedDelim(chunks) == Some(p) <==> WithinOneRead(chunks, p)
    ensures WithinOneRead(chunks, p) ==>
            AddHeadersSpec(chunks, false, hdrs) == Ok(InsertAt(Flatten(chunks), p, hdrs))
  {
    ChunkedDelimIsFirstUncut(chunks, p);
  }

  /** Nothing of the mail is lost or changed: taking the section out again restores it. */
  lemma InsertionConserves(chunks: seq<seq<byte>>, readFails: bool, hdrs: seq<byte>)
    requires AddHeadersSpec(chunks, readFails, hdrs).Ok?
    ensures exists p: nat ::
              var out := AddHeadersSpec(chunks, readFails, hdrs).value;
              && p + 2 + |hdrs| <= |out|
              && DelimAt(Flatten(chunks), p)
              && out[p + 2..p + 2 + |hdrs|] == hdrs
              && out[..p + 2] + out[p + 2 + |hdrs|..] == Flatten(chunks)
  {
    var p := ChunkedDelim(chunks).value;
    var mail := Flatten(chunks);
    var out := InsertAt(mail, p, hdrs);
    assert out[p + 2..p + 2 + |hdrs|] == hdrs;
    assert out[..p + 2] == mail[..p + 2] && out[p + 2 + |hdrs|..] == mail[p + 2..];
    assert mail[..p + 2] + mail[p + 2..] == mail;
  }

  /** A cut delimiter is missed: here the lines end up inside the body. */
  lemma CutDelimiterMissed(hdrs: seq<byte>)
    ensures var chunks := [[65, COLON, 66] + [CR, LF, CR], [LF, 67, CR, LF, CR, LF]];
            && Flatten(chunks) == [65, COLON, 66, CR, LF, CR, LF, 67, CR, LF, CR, LF]
            && IsFirstDelim(Flatten(chunks), 3)
            && AddHeadersSpec(chunks, false, hdrs) == Ok(InsertAt(Flatten(chunks), 8, hdrs))
  {
    var a: seq<byte> := [65, COLON, 66] + [CR, LF, CR];
    var b: seq<byte> := [LF, 67, CR, LF, CR, LF];
    var chunks := [a, b];
    assert chunks[1..] == [b];
    assert Flatten([b]) == b;
    assert Flatten(chunks) == [65, COLON, 66, CR, LF, CR, LF, 67, CR, LF, CR, LF];
    assert IndexDelim(a).None? by {
      assert forall q :: !DelimAt(a, q);
    }
    assert IndexDelim(b) == Some(2) by {
      assert DelimAt(b, 2) && !DelimAt(b, 0) && !DelimAt(b, 1);
    }
    assert ChunkedDelim([b]) == Some(2);
  }

  // ---- a file that is read in full buffers ------------------------------------------

  /** The size of the buffer that addHeaders reads into. */
  const READ_SIZE := 4096

  /** All reads but the last fill the buffer. */
  ghost predicate FullReads(chunks: seq<seq<byte>>) {
    chunks == [] ||
    (0 < |chunks[0]| <= READ_SIZE && (|chunks| > 1 ==> |chunks[0]| == READ_SIZE) && FullReads(chunks[1..]))
  }

  /** Then a delimiter is uncut exactly when it does not lie across a multiple of the size. */
  lemma {:induction false} FullReadsCut(chunks: seq<seq<byte>>, p: nat)
    requires FullReads(chunks) && DelimAt(Flatten(chunks), p)
    ensures WithinOneRead(chunks, p) <==> p % 4096 <= 4092
    decreases |chunks|
  {
    var n := |chunks[0]|;
    if n <= p {
      assert Flatten(chunks)[n..] == Flatten(chunks[1..]);
      assert DelimAt(Flatten(chunks[1..]), p - n);
      FullReadsCut(chunks[1..], p - n);
    } else if |chunks| == 1 {
      assert Flatten(chunks) == chunks[0];
    }
  }

  /** So the end of a header of 4095, 4096 or 4097 bytes is never found, and a mail without
      another CRLFCRLF in its body is refused. */
  lemma {:induction false} FullReadsMiss(line: seq<byte>, body: seq<byte>, hdrs: seq<byte>)
    requires 4093 <= |line| <= 4095 && LF !in line
    requires |body| <= 4092 && LF !in body
    ensures var mail := line + CRLF + CRLF + body;
            var chunks := [mail[..READ_SIZE], mail[READ_SIZE..]];
            && Flatten(chunks) == mail && FullReads(chunks) && IsFirstDelim(mail, |line|)
            && AddHeadersSpec(chunks, false, hdrs) == Err(HeaderEndNotFound)
  {
    var mail := line + CRLF + CRLF + body;
    var a, b := mail[..READ_SIZE], mail[READ_SIZE..];
    var chunks := [a, b];
    assert chunks[1..] == [b];
    assert Flatten([b]) == b && a + b == mail;
    assert forall k :: 0 <= k < |line| ==> mail[k] == line[k];
    assert forall k :: |line| + 4 <= k < |mail| ==> mail[k] == body[k - |line| - 4];
    forall q
      ensures DelimAt(mail, q) ==> q == |line|
    {
      assert DelimAt(mail, q) ==> mail[q + 1] == LF && mail[q + 3] == LF;
    }
    assert DelimAt(mail, |line|);
    FullReadsCut(chunks, |line|);
    if ChunkedDelim(chunks).Some? {
      ChunkedDelimIsFirstUncut(chunks, ChunkedDelim(chunks).value);
    }
  }

  // ---- insertion as an action of section concatenation ---------------------------

  /** After inserting a clean section the first delimiter sits directly behind it. */
  lemma FirstDelimAfterInsertion(mail: seq<byte>, p: nat, h: seq<byte>)
    requires IsFirstDelim(mail, p)
    requires CleanSection(h)
    ensures IsFirstDelim(InsertAt(mail, p, h), p + |h|)
  {
    var s := InsertAt(mail, p, h);
    assert forall k :: 0 <= k < p + 2 ==> s[k] == mail[k];
    assert forall k :: 0 <= k < |h| ==> s[p + 2 + k] == h[k];
    assert forall k :: p + 2 <= k < |mail| ==> s[k + |h|] == mail[k];
    assert s[p + |h|..p + |h| + 2] == CRLF by {
      if h != [] {
        assert s[p + |h|..p + |h| + 2] == h[|h| - 2..];
      }
    }
    assert s[p + |h|] == s[p + |h|..p + |h| + 2][0] && s[p + |h| + 1] == s[p + |h|..p + |h| + 2][1];
    assert DelimAt(s, p + |h|);
    forall q | q < p + |h|
      ensures !DelimAt(s, q)
    {
      assert q + 2 <= p && DelimAt(s, q) ==> DelimAt(mail, q);
    }
  }

  /** Inserting two sections one after the other is inserting their concatenation. */
  lemma InsertionComposes(mail: seq<byte>, p: nat, h1: seq<byte>, h2: seq<byte>)
    requires IsFirstDelim(mail, p)
    requires CleanSection(h1)
    ensures |mail| + |h1| == |InsertAt(mail, p, h1)| && p + |h1| + 2 <= |mail| + |h1|
    ensures IsFirstDelim(InsertAt(mail, p, h1), p + |h1|)
    ensures InsertAt(InsertAt(mail, p, h1), p + |h1|, h2) == InsertAt(mail, p, h1 + h2)
    ensures InsertAt(mail, p, []) == mail
  {
    FirstDelimAfterInsertion(mail, p, h1);
    var s := InsertAt(mail, p, h1);
    assert s[..p + |h1| + 2] == mail[..p + 2] + h1;
    assert s[p + |h1| + 2..] == mail[p + 2..];
  }

  lemma AddingTwice(chunks: seq<seq<byte>>, chunks2: seq<seq<byte>>, p: nat, h1: seq<byte>, h2: seq<byte>)
    requires CleanSection(h1)
    requires IsFirstDelim(Flatten(chunks), p) && WithinOneRead(chunks, p)
    requires AddHeadersSpec(chunks, false, h1) == Ok(Flatten(chunks2))
    requires WithinOneRead(chunks2, p + |h1|)
    ensures AddHeadersSpec(chunks2, false, h2) == AddHeadersSpec(chunks, false, h1 + h2)
  {
    InsertsAtFirstDelim(chunks, h1, p);
    InsertionComposes(Flatten(chunks), p, h1, h2);
    InsertsAtFirstDelim(chunks2, h2, p + |h1|);
    InsertsAtFirstDelim(chunks, h1 + h2, p);
  }

  /** The same for two runs of addHeaders with printed sections: adding a and then b is
      adding a + b, for every way of cutting the two inputs that leaves the blank line whole. */
  lemma {:induction false} AddingTwiceIsAddingBoth(chunks: seq<seq<byte>>, chunks2: seq<seq<byte>>, p: nat,
                                                   a: seq<Header>, b: seq<Header>, h1: seq<byte>, h2: seq<byte>)
    requires forall i :: 0 <= i < |a| ==> Printable(a[i])
    requires h1 == Join(FieldLines(a)) && h2 == Join(FieldLines(b))
    requires IsFirstDelim(Flatten(chunks), p) && WithinOneRead(chunks, p)
    requires AddHeadersSpec(chunks, false, h1) == Ok(Flatten(chunks2))
    requires WithinOneRead(chunks2, p + |h1|)
    ensures h1 + h2 == Join(FieldLines(a + b))
    ensures AddHeadersSpec(chunks2, false, h2) == AddHeadersSpec(chunks, false, h1 + h2)
  {
    SectionIsClean(a);
    assert FieldLines(a + b) == FieldLines(a) + FieldLines(b);
    JoinAppend(FieldLines(a), FieldLines(b));
    AddingTwice(chunks, chunks2, p, h1, h2);
  }
}
