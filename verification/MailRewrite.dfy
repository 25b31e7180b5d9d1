/** What replacing a header and then inserting the scan headers does to a whole mail. */
module MailRewrite {
  import opened Bytes
  import opened HeaderPrinter
  import opened HeaderInsertion
  import opened HeaderReplacement
  import opened Wrappers

  // ---- lines as a homomorphism -------------------------------------------------

  lemma JoinEndsWithLF(lines: seq<seq<byte>>)
    ensures Join(lines) == [] || Join(lines)[|Join(lines)| - 1] == LF
  {
    if lines != [] {
      JoinEndsWithCRLF(lines);
      assert Join(lines)[|Join(lines)| - 2..][1] == LF;
    }
  }

  lemma {:induction false} LinesAround(a: seq<seq<byte>>, x: seq<byte>, b: seq<seq<byte>>)
    requires forall i :: 0 <= i < |a| ==> NoLF(a[i])
    requires forall i :: 0 <= i < |b| ==> NoLF(b[i])
    ensures Lines(Join(a + [x] + b)) == a + Lines(x + CRLF) + b
  {
    JoinAppend(a + [x], b);
    JoinSnoc(a, x);
    JoinEndsWithLF(a);
    JoinEndsWithLF(a + [x]);
    LinesAppend(Join(a + [x]), Join(b));
    LinesAppend(Join(a), x + CRLF);
    LinesOfJoin(a);
    LinesOfJoin(b);
  }

  // ---- landmarks are determined by their properties ------------------------------

  lemma FirstMatchIs(lines: seq<seq<byte>>, name: seq<byte>, m: nat)
    requires m < |lines| && Matches(lines[m], name)
    requires forall i :: 0 <= i < m ==> !Matches(lines[i], name)
    ensures FirstMatch(lines, name) == m
  {
    assert !(FirstMatch(lines, name) < m);
  }

  lemma FoldEndIs(lines: seq<seq<byte>>, from: nat, e: nat)
    requires from <= e <= |lines| && (e < |lines| ==> !IsFold(lines[e]))
    requires forall i :: from <= i < e ==> IsFold(lines[i])
    ensures FoldEnd(lines, from) == e
  {
    assert !(FoldEnd(lines, from) < e);
  }

  // ---- the replacement as lines ----------------------------------------------------

  /** Every line break inside the text starts a fold line. */
  predicate FoldSafe(s: seq<byte>) {
    forall i :: 0 <= i < |s| && s[i] == LF ==> i + 1 < |s| && (s[i + 1] == SP || s[i + 1] == HT)
  }

  ghost predicate AllFold(lines: seq<seq<byte>>) {
    forall i :: 0 <= i < |lines| ==> IsFold(lines[i])
  }

  lemma FirstLineStart(s: seq<byte>)
    requires s != []
    ensures Lines(s) != []
    ensures IsFold(Lines(s)[0]) <==> s[0] == SP || s[0] == HT
  {
    var i := IndexLF(s);
    assert i < |s| ==> Lines(s)[0] == DropCR(s[..i]);
  }

  lemma FoldSafeStep(s: seq<byte>)
    requires IndexLF(s) < |s|
    ensures var rest := s[IndexLF(s) + 1..];
            FoldSafe(s) <==> rest != [] && (rest[0] == SP || rest[0] == HT) && FoldSafe(rest)
  {
    var i := IndexLF(s);
    var rest := s[i + 1..];
    if FoldSafe(s) {
      assert s[i + 1] == rest[0];
      assert forall k :: 0 <= k < |rest| ==> rest[k] == s[i + 1 + k];
    }
    if rest != [] && (rest[0] == SP || rest[0] == HT) && FoldSafe(rest) {
      forall k | 0 <= k < |s| && s[k] == LF
        ensures k + 1 < |s| && (s[k + 1] == SP || s[k + 1] == HT)
      {
        assert k > i ==> rest[k - i - 1] == LF;
      }
    }
  }

  lemma AllFoldFirst(lines: seq<seq<byte>>)
    requires lines != []
    ensures AllFold(lines) <==> IsFold(lines[0]) && AllFold(lines[1..])
  {
    assert forall i :: 1 <= i < |lines| ==> lines[i] == lines[1..][i - 1];
    assert forall i :: 0 <= i < |lines[1..]| ==> lines[1..][i] == lines[i + 1];
  }

  lemma TailOfCons<T>(x: T, r: seq<T>)
    ensures ([x] + r)[1..] == r
  {
  }

  /** All lines of a text but the first are fold lines exactly when the text is fold-safe. */
  lemma {:induction false} FoldLinesOf(s: seq<byte>)
    ensures Lines(s + CRLF) != []
    ensures AllFold(Lines(s + CRLF)[1..]) <==> FoldSafe(s)
    decreases |s|
  {
    var i := IndexLF(s);
    if i == |s| {
      LinesOfOne(s);
    } else {
      var t, rest := s + CRLF, s[i + 1..];
      FirstLFIs(t, i);
      assert t[i + 1..] == rest + CRLF;
      LinesStep(t);
      TailOfCons(DropCR(t[..i]), Lines(rest + CRLF));
      FoldLinesOf(rest);
      FirstLineStart(rest + CRLF);
      FoldSafeStep(s);
      AllFoldFirst(Lines(rest + CRLF));
    }
  }

  /** A name that some scanned line matches has no line feed. */
  lemma MatchedNameHasNoLF(line: seq<byte>, name: seq<byte>)
    requires Matches(line, name) && NoLF(line)
    ensures NoLF(name)
  {
    forall i | 0 <= i < |name|
      ensures name[i] != LF
    {
      assert Upper(line[i]) == Upper(name[i]) && line[i] != LF;
    }
  }

  lemma FoldSafeBehind(pre: seq<byte>, s: seq<byte>)
    requires NoLF(pre)
    ensures FoldSafe(pre + s) <==> FoldSafe(s)
  {
    var t, n := pre + s, |pre|;
    assert forall k :: 0 <= k < n ==> t[k] == pre[k];
    if FoldSafe(t) {
      forall k | 0 <= k < |s| && s[k] == LF
        ensures k + 1 < |s| && (s[k + 1] == SP || s[k + 1] == HT)
      {
        assert t[n + k] == LF;
        assert k + 1 < |s| ==> t[n + k + 1] == s[k + 1];
      }
    }
    if FoldSafe(s) {
      forall k | 0 <= k < |t| && t[k] == LF
        ensures k + 1 < |t| && (t[k + 1] == SP || t[k + 1] == HT)
      {
        assert s[k - n] == LF;
      }
    }
  }

  lemma ReplacementBytes(hdr: Header)
    requires NoLF(hdr.name)
    ensures var r, n := Replacement(hdr), |hdr.name|;
            && |r| == n + 2 + |hdr.body|
            && (forall k :: 0 <= k < n ==> r[k] == hdr.name[k] && r[k] != LF)
            && r[n] == COLON && r[n + 1] == SP
            && (FoldSafe(r) <==> FoldSafe(hdr.body))
  {
    FoldSafeBehind(hdr.name + [COLON, SP], hdr.body);
  }

  lemma FirstLineMatches(s: seq<byte>, name: seq<byte>)
    requires |name| + 2 <= |s| && s[|name|] == COLON && s[|name| + 1] == SP
    requires forall k :: 0 <= k < |name| ==> s[k] == name[k] && s[k] != LF
    ensures Lines(s) != [] && Matches(Lines(s)[0], name)
  {
    var i := IndexLF(s);
    assert i < |s| ==> Lines(s)[0] == DropCR(s[..i]);
  }

  /** The first line of the replacement matches again; the others are folds iff the body is fold-safe. */
  lemma ReplacementLines(hdr: Header)
    requires NoLF(hdr.name)
    ensures var ls := Lines(Replacement(hdr) + CRLF);
            ls != [] && Matches(ls[0], hdr.name) && (AllFold(ls[1..]) <==> FoldSafe(hdr.body))
  {
    ReplacementBytes(hdr);
    FoldLinesOf(Replacement(hdr));
    FirstLineMatches(Replacement(hdr) + CRLF, hdr.name);
  }

  // ---- success, and what is replaced -------------------------------------------------

  /** Every line fits the scanner's buffer. */
  predicate AllFit(mail: seq<byte>) {
    Scannable(mail) == |Lines(mail)|
  }

  /** With an intact reader, replacing succeeds exactly when every line fits the scanner and,
      if there is a blank line, a match precedes it. */
  lemma {:induction false} ReplaceSucceeds(mail: seq<byte>, hdr: Header)
    ensures ReplaceSpec(mail, false, hdr).Ok? <==>
            AllFit(mail) && (FirstBlank(Lines(mail)) < |Lines(mail)| ==> HasMatch(Lines(mail), hdr.name))
    ensures ReplaceSpec(mail, false, hdr).Ok? ==>
            ReplaceSpec(mail, false, hdr).value == Join(ReplaceLines(Lines(mail), hdr))
  {
    assert Lines(mail)[..|Lines(mail)|] == Lines(mail);
  }

  /** In terms of the letters: unless there is a blank line and no line before it carries the name,
      upper or lower case. */
  lemma {:induction false} ReplaceSucceedsIff(mail: seq<byte>, hdr: Header)
    ensures ReplaceSpec(mail, false, hdr).Ok? <==> AllFit(mail) && !LacksField(Lines(mail), hdr.name)
  {
    ReplaceSucceeds(mail, hdr);
    LacksFieldIff(Lines(mail), hdr.name);
  }

  // ---- which outputs fit the scanner ---------------------------------------------------

  /** The line fits the scanner also when it ends in CRLF. */
  predicate RoomForCR(line: seq<byte>) {
    |line| + 1 < MAX_SCAN
  }

  predicate AllRoom(lines: seq<seq<byte>>) {
    forall i :: 0 <= i < |lines| ==> RoomForCR(lines[i])
  }

  lemma AllFitStep(s: seq<byte>)
    requires IndexLF(s) < |s|
    ensures AllFit(s) <==> Fits(s[..IndexLF(s)]) && AllFit(s[IndexLF(s) + 1..])
  {
    LinesStep(s);
  }

  lemma {:induction false} AllFitAppend(a: seq<byte>, b: seq<byte>)
    requires a == [] || a[|a| - 1] == LF
    ensures AllFit(a + b) <==> AllFit(a) && AllFit(b)
    decreases |a|
  {
    if a == [] {
      assert a + b == b;
    } else {
      var i := IndexLF(a);
      assert a[|a| - 1] == LF;
      FirstLFIs(a + b, i);
      assert (a + b)[..i] == a[..i];
      assert (a + b)[i + 1..] == a[i + 1..] + b;
      AllFitStep(a);
      AllFitStep(a + b);
      AllFitAppend(a[i + 1..], b);
    }
  }

  lemma AllFitOne(x: seq<byte>)
    requires NoLF(x)
    ensures AllFit(x + CRLF) <==> RoomForCR(x)
  {
    FirstLFIs(x + CRLF, |x| + 1);
    assert (x + CRLF)[..|x| + 1] == x + [CR];
    assert (x + CRLF)[|x| + 2..] == [];
    AllFitStep(x + CRLF);
  }

  lemma {:induction false} AllFitJoin(lines: seq<seq<byte>>)
    requires forall i :: 0 <= i < |lines| ==> NoLF(lines[i])
    ensures AllFit(Join(lines)) <==> AllRoom(lines)
  {
    if lines != [] {
      AllFitOne(lines[0]);
      AllFitAppend(lines[0] + CRLF, Join(lines[1..]));
      AllFitJoin(lines[1..]);
      assert forall i :: 1 <= i < |lines| ==> lines[i] == lines[1..][i - 1];
      assert forall i :: 0 <= i < |lines[1..]| ==> lines[1..][i] == lines[i + 1];
    }
  }

  lemma {:induction false} AllFitAround(a: seq<seq<byte>>, x: seq<byte>, b: seq<seq<byte>>)
    requires forall i :: 0 <= i < |a| ==> NoLF(a[i])
    requires forall i :: 0 <= i < |b| ==> NoLF(b[i])
    ensures AllFit(Join(a + [x] + b)) <==> AllRoom(a) && AllFit(x + CRLF) && AllRoom(b)
  {
    JoinAppend(a + [x], b);
    JoinSnoc(a, x);
    JoinEndsWithLF(a);
    JoinEndsWithLF(a + [x]);
    AllFitAppend(Join(a + [x]), Join(b));
    AllFitAppend(Join(a), x + CRLF);
    AllFitJoin(a);
    AllFitJoin(b);
  }

  // ---- replacing twice -------------------------------------------------------------------

  lemma SecondFirstMatch(head: seq<seq<byte>>, ls: seq<seq<byte>>, tail: seq<seq<byte>>, name: seq<byte>)
    requires forall i :: 0 <= i < |head| ==> head[i] != [] && !Matches(head[i], name)
    requires ls != [] && Matches(ls[0], name)
    ensures FirstMatch(head + ls + tail, name) == |head| && HasMatch(head + ls + tail, name)
  {
    var all := head + ls + tail;
    assert all[|head|] == ls[0];
    assert forall i :: 0 <= i < |head| ==> all[i] == head[i];
    FirstMatchIs(all, name, |head|);
    assert FirstBlank(all) > |head|;
  }

  lemma SecondFoldEnd(head: seq<seq<byte>>, ls: seq<seq<byte>>, tail: seq<seq<byte>>)
    requires ls != [] && (tail != [] ==> !IsFold(tail[0]))
    ensures var e := FoldEnd(head + ls + tail, |head| + 1);
            e <= |head| + |ls| && (e == |head| + |ls| <==> AllFold(ls[1..]))
  {
    var all := head + ls + tail;
    var e := FoldEnd(all, |head| + 1);
    var end := |head| + |ls|;
    assert end < |all| ==> all[end] == tail[0];
    assert forall i :: |head| + 1 <= i < end ==> all[i] == ls[1..][i - |head| - 1];
    if AllFold(ls[1..]) {
      FoldEndIs(all, |head| + 1, end);
    } else {
      var i :| 0 <= i < |ls[1..]| && !IsFold(ls[1..][i]);
      assert all[|head| + 1 + i] == ls[1..][i];
    }
  }

  lemma SplitConcat<T>(a: seq<T>, b: seq<T>, c: seq<T>, e: nat)
    requires |a| <= e <= |a| + |b|
    ensures (a + b + c)[..|a|] == a
    ensures (a + b + c)[e..] == b[e - |a|..] + c
  {
  }

  lemma ReplacedAgain(head: seq<seq<byte>>, ls: seq<seq<byte>>, tail: seq<seq<byte>>, hdr: Header, e: nat)
    requires HasMatch(head + ls + tail, hdr.name) && FirstMatch(head + ls + tail, hdr.name) == |head|
    requires e == FoldEnd(head + ls + tail, |head| + 1) && e <= |head| + |ls|
    ensures ReplaceLines(head + ls + tail, hdr) == head + [Replacement(hdr)] + (ls[e - |head|..] + tail)
  {
    SplitConcat(head, ls, tail, e);
  }

  lemma LeftoverLines(kept: seq<seq<byte>>, left: seq<seq<byte>>, tail: seq<seq<byte>>)
    ensures Join(kept + (left + tail)) == Join(kept + tail) <==> left == []
  {
    JoinAppend(kept, tail);
    JoinAppend(kept, left + tail);
    JoinAppend(left, tail);
    if left != [] {
      JoinEndsWithCRLF(left);
    } else {
      assert left + tail == tail;
    }
  }

  /** Replacing again leaves the lines of the first replacement that are no folds. */
  lemma {:induction false} ReplacedTwice(head: seq<seq<byte>>, ls: seq<seq<byte>>, tail: seq<seq<byte>>,
                                         hdr: Header, e: nat)
    requires HasMatch(head + ls + tail, hdr.name) && FirstMatch(head + ls + tail, hdr.name) == |head|
    requires e == FoldEnd(head + ls + tail, |head| + 1) && e <= |head| + |ls|
    ensures Join(ReplaceLines(head + ls + tail, hdr)) == Join(head + [Replacement(hdr)] + tail) <==> e == |head| + |ls|
  {
    ReplacedAgain(head, ls, tail, hdr, e);
    LeftoverLines(head + [Replacement(hdr)], ls[e - |head|..], tail);
    assert ls[e - |head|..] == [] <==> e == |head| + |ls|;
  }

  /** Replacing again in the rewritten lines, where ls are the lines of the replacement. */
  lemma {:induction false} SecondPass(lines: seq<seq<byte>>, ls: seq<seq<byte>>, hdr: Header, m: nat,
                                      head: seq<seq<byte>>, tail: seq<seq<byte>>)
    requires HasMatch(lines, hdr.name) && m == FirstMatch(lines, hdr.name)
    requires head == lines[..m] && tail == lines[FoldEnd(lines, m + 1)..]
    requires ls != [] && Matches(ls[0], hdr.name)
    ensures HasMatch(head + ls + tail, hdr.name)
    ensures Join(ReplaceLines(head + ls + tail, hdr)) == Join(ReplaceLines(lines, hdr)) <==> AllFold(ls[1..])
  {
    SecondFirstMatch(head, ls, tail, hdr.name);
    SecondFoldEnd(head, ls, tail);
    ReplacedTwice(head, ls, tail, hdr, FoldEnd(head + ls + tail, m + 1));
    assert ReplaceLines(lines, hdr) == head + [Replacement(hdr)] + tail;
  }

  lemma {:induction false} SecondPassOutput(lines: seq<seq<byte>>, hdr: Header)
    requires forall i :: 0 <= i < |lines| ==> NoLF(lines[i])
    requires HasMatch(lines, hdr.name)
    ensures var out := Join(ReplaceLines(lines, hdr));
            HasMatch(Lines(out), hdr.name) &&
            (Join(ReplaceLines(Lines(out), hdr)) == out <==> FoldSafe(hdr.body))
  {
    var m := FirstMatch(lines, hdr.name);
    var head, tail := lines[..m], lines[FoldEnd(lines, m + 1)..];
    var ls := Lines(Replacement(hdr) + CRLF);
    MatchedNameHasNoLF(lines[m], hdr.name);
    ReplacementLines(hdr);
    SecondPass(lines, ls, hdr, m, head, tail);
    LinesAround(head, Replacement(hdr), tail);
    assert ReplaceLines(lines, hdr) == head + [Replacement(hdr)] + tail;
    assert Lines(Join(ReplaceLines(lines, hdr))) == head + ls + tail;
  }

  /** What can be checked before the first call: every line that is kept has room for a CR, and
      if a header is replaced, then the lines of its replacement fit the scanner and its new body
      has no line break that is not a fold. */
  predicate Repeatable(lines: seq<seq<byte>>, hdr: Header) {
    if HasMatch(lines, hdr.name) then
      var m := FirstMatch(lines, hdr.name);
      && AllRoom(lines[..m]) && AllRoom(lines[FoldEnd(lines, m + 1)..])
      && AllFit(Replacement(hdr) + CRLF) && FoldSafe(hdr.body)
    else
      AllRoom(lines)
  }

  /** Applying the same replacement to its own output changes nothing exactly when the mail and
      the header are repeatable. */
  lemma {:induction false} ReplaceIdempotentIff(mail: seq<byte>, hdr: Header, out: seq<byte>)
    requires ReplaceSpec(mail, false, hdr) == Ok(out)
    ensures ReplaceSpec(out, false, hdr) == Ok(out) <==> Repeatable(Lines(mail), hdr)
  {
    var lines := Lines(mail);
    ReplaceSucceeds(mail, hdr);
    ReplaceSucceeds(out, hdr);
    LinesHaveNoLF(mail);
    if HasMatch(lines, hdr.name) {
      SecondPassOutput(lines, hdr);
      var m := FirstMatch(lines, hdr.name);
      AllFitAround(lines[..m], Replacement(hdr), lines[FoldEnd(lines, m + 1)..]);
    } else {
      LinesOfJoin(lines);
      AllFitJoin(lines);
    }
  }

  // ---- where the header ends ----------------------------------------------------------------

  ghost predicate StartsWithCRLF(s: seq<byte>) {
    |s| >= 2 && s[0] == CR && s[1] == LF
  }

  /** Text that can stand on header lines without ending the header. */
  ghost predicate HeaderText(x: seq<byte>) {
    x != [] && NoDelim(x + CRLF) && !StartsWithCRLF(x)
  }

  lemma OneMoreHeaderLine(x: seq<byte>, rest: seq<byte>)
    requires HeaderText(x)
    requires NoDelim(rest) && !StartsWithCRLF(rest)
    ensures NoDelim(x + CRLF + rest) && !StartsWithCRLF(x + CRLF + rest)
  {
    var s, n := x + CRLF + rest, |x| + 2;
    assert s[n - 2] == CR && s[n - 1] == LF;
    assert forall k :: 0 <= k < n ==> s[k] == (x + CRLF)[k];
    assert forall k :: n <= k < |s| ==> s[k] == rest[k - n];
    forall q
      ensures !DelimAt(s, q)
    {
      assert !DelimAt(x + CRLF, q) && !DelimAt(rest, q - n);
    }
  }

  lemma {:induction false} HeaderLinesHaveNoDelim(lines: seq<seq<byte>>)
    requires forall i :: 0 <= i < |lines| ==> HeaderText(lines[i])
    ensures NoDelim(Join(lines)) && !StartsWithCRLF(Join(lines))
  {
    if lines != [] {
      HeaderLinesHaveNoDelim(lines[1..]);
      OneMoreHeaderLine(lines[0], Join(lines[1..]));
    }
  }

  lemma DelimAtBlankLine(hdrLines: seq<seq<byte>>, rest: seq<byte>)
    requires hdrLines != []
    ensures |Join(hdrLines)| >= 2
    ensures DelimAt(Join(hdrLines) + CRLF + rest, |Join(hdrLines)| - 2)
  {
    var h := Join(hdrLines);
    var s, n := h + CRLF + rest, |h|;
    JoinEndsWithCRLF(hdrLines);
    assert h[n - 2] == h[n - 2..][0] && h[n - 1] == h[n - 2..][1];
    assert s[n - 2] == h[n - 2] && s[n - 1] == h[n - 1] && s[n] == CR && s[n + 1] == LF;
  }

  /** A mail made of header lines, the blank line and the rest has its first delimiter
      exactly at the end of the header lines. */
  lemma HeaderEndsAtBlankLine(hdrLines: seq<seq<byte>>, rest: seq<byte>)
    requires hdrLines != []
    requires forall i :: 0 <= i < |hdrLines| ==> HeaderText(hdrLines[i])
    ensures |Join(hdrLines)| >= 2
    ensures IsFirstDelim(Join(hdrLines) + CRLF + rest, |Join(hdrLines)| - 2)
  {
    var h := Join(hdrLines);
    var s, n := h + CRLF + rest, |h|;
    DelimAtBlankLine(hdrLines, rest);
    HeaderLinesHaveNoDelim(hdrLines);
    assert forall k :: 0 <= k < n ==> s[k] == h[k];
    forall q | q < n - 2
      ensures !DelimAt(s, q)
    {
      assert !DelimAt(h, q);
    }
  }

  // ---- end to end -----------------------------------------------------------------------------

  /** The header lines of the rewritten mail: those of the original up to the first blank
      line, with the replaced field and its folds as one line. */
  ghost function RewrittenHeader(lines: seq<seq<byte>>, hdr: Header): seq<seq<byte>>
    requires HasMatch(lines, hdr.name)
  {
    var m := FirstMatch(lines, hdr.name);
    lines[..m] + [Replacement(hdr)] + lines[FoldEnd(lines, m + 1)..FirstBlank(lines)]
  }

  lemma FoldsEndBeforeBlank(lines: seq<seq<byte>>, name: seq<byte>)
    requires HasMatch(lines, name)
    ensures FoldEnd(lines, FirstMatch(lines, name) + 1) <= FirstBlank(lines)
  {
    var b := FirstBlank(lines);
    assert b < |lines| ==> !IsFold(lines[b]);
  }

  lemma JoinAroundBlank(front: seq<seq<byte>>, fields: seq<seq<byte>>, blank: seq<byte>, body: seq<seq<byte>>)
    requires blank == []
    ensures Join(front + (fields + [blank] + body)) == Join(front + fields) + CRLF + Join(body)
  {
    JoinAppend(front, fields + [blank] + body);
    JoinAppend(front, fields);
    JoinAppend(fields + [blank], body);
    JoinSnoc(fields, blank);
    assert blank + CRLF == CRLF;
    ConcatAssociates(Join(front), Join(fields) + CRLF, Join(body));
    ConcatAssociates(Join(front), Join(fields), CRLF);
  }

  lemma SplitAt<T>(s: seq<T>, e: nat, b: nat)
    requires e <= b < |s|
    ensures s[e..] == s[e..b] + [s[b]] + s[b + 1..]
  {
  }

  lemma AroundBlank(lines: seq<seq<byte>>, x: seq<byte>, m: nat, e: nat, b: nat)
    requires m < e <= b < |lines| && lines[b] == []
    ensures Join(lines[..m] + [x] + lines[e..]) == Join(lines[..m] + [x] + lines[e..b]) + CRLF + Join(lines[b + 1..])
  {
    SplitAt(lines, e, b);
    JoinAroundBlank(lines[..m] + [x], lines[e..b], lines[b], lines[b + 1..]);
  }

  lemma ReplacedAroundBlank(lines: seq<seq<byte>>, hdr: Header, m: nat, e: nat, b: nat)
    requires HasMatch(lines, hdr.name) && m == FirstMatch(lines, hdr.name)
    requires e == FoldEnd(lines, m + 1) && b == FirstBlank(lines) < |lines|
    ensures Join(ReplaceLines(lines, hdr)) == Join(RewrittenHeader(lines, hdr)) + CRLF + Join(lines[b + 1..])
  {
    FoldsEndBeforeBlank(lines, hdr.name);
    AroundBlank(lines, Replacement(hdr), m, e, b);
  }

  lemma NoLFIsHeaderText(x: seq<byte>)
    requires x != [] && NoLF(x)
    ensures HeaderText(x)
  {
    var s := x + CRLF;
    forall q
      ensures !DelimAt(s, q)
    {
      assert 0 <= q && q + 4 <= |s| ==> s[q + 1] == x[q + 1];
    }
  }

  /** The delimiters of the replacement line are those of the new body. */
  lemma DelimsOfReplacement(hdr: Header, q: int)
    requires NoLF(hdr.name)
    ensures DelimAt(Replacement(hdr) + CRLF, |hdr.name| + 2 + q) <==> DelimAt(hdr.body + CRLF, q)
  {
    var r, b, n := Replacement(hdr) + CRLF, hdr.body + CRLF, |hdr.name| + 2;
    assert r == hdr.name + [COLON, SP] + b;
    assert forall k :: 0 <= k < |b| ==> r[n + k] == b[k];
    if q < 0 && 0 <= n + q {
      assert n + q + 1 < |hdr.name| ==> r[n + q + 1] == hdr.name[n + q + 1];
    }
  }

  lemma ReplacementIsHeaderText(hdr: Header)
    requires NoLF(hdr.name) && NoDelim(hdr.body + CRLF)
    ensures HeaderText(Replacement(hdr))
  {
    var r := Replacement(hdr);
    forall q
      ensures !DelimAt(r + CRLF, q)
    {
      DelimsOfReplacement(hdr, q - |hdr.name| - 2);
    }
    assert |hdr.name| >= 2 ==> r[1] == hdr.name[1];
  }

  lemma RewrittenHeaderIsHeaderText(lines: seq<seq<byte>>, hdr: Header)
    requires forall i :: 0 <= i < |lines| ==> NoLF(lines[i])
    requires HasMatch(lines, hdr.name) && NoLF(hdr.name) && NoDelim(hdr.body + CRLF)
    ensures forall i :: 0 <= i < |RewrittenHeader(lines, hdr)| ==> HeaderText(RewrittenHeader(lines, hdr)[i])
  {
    var m := FirstMatch(lines, hdr.name);
    var e := FoldEnd(lines, m + 1);
    FoldsEndBeforeBlank(lines, hdr.name);
    var hl, r := RewrittenHeader(lines, hdr), Replacement(hdr);
    ReplacementIsHeaderText(hdr);
    forall i | 0 <= i < |hl|
      ensures HeaderText(hl[i])
    {
      if i == m {
        assert hl[i] == r;
      } else {
        var k := if i < m then i else e + i - m - 1;
        assert hl[i] == lines[k];
        NoLFIsHeaderText(lines[k]);
      }
    }
  }

  /** Where the new body starts in the rewritten mail. */
  function BodyOffset(lines: seq<seq<byte>>, hdr: Header): nat {
    |Join(lines[..FirstMatch(lines, hdr.name)])| + |hdr.name| + 2
  }

  lemma DelimInside(a: seq<byte>, x: seq<byte>, b: seq<byte>, q: int)
    requires DelimAt(x, q)
    ensures DelimAt(a + x + b, |a| + q) && q + 4 <= |x|
  {
    var s := a + x + b;
    assert forall k :: 0 <= k < |x| ==> s[|a| + k] == x[k];
  }

  lemma DelimInReplacement(pre: seq<byte>, hdr: Header, post: seq<byte>, rest: seq<byte>, q: int)
    requires NoLF(hdr.name) && DelimAt(hdr.body + CRLF, q)
    ensures var head := pre + (Replacement(hdr) + CRLF) + post;
            DelimAt(head + CRLF + rest, |pre| + |hdr.name| + 2 + q) && |pre| + |hdr.name| + 2 + q < |head| - 2
  {
    var r := Replacement(hdr) + CRLF;
    DelimsOfReplacement(hdr, q);
    DelimInside(pre, r, post, |hdr.name| + 2 + q);
    DelimInside([], pre + r + post, CRLF + rest, |pre| + |hdr.name| + 2 + q);
    assert [] + (pre + r + post) + (CRLF + rest) == pre + r + post + CRLF + rest;
  }

  /** A delimiter in the new body ends the header of the rewritten mail before its blank line. */
  lemma DelimInBodySplits(lines: seq<seq<byte>>, hdr: Header, head: seq<byte>, rest: seq<byte>, q: int)
    requires HasMatch(lines, hdr.name) && NoLF(hdr.name) && head == Join(RewrittenHeader(lines, hdr))
    requires DelimAt(hdr.body + CRLF, q)
    ensures DelimAt(head + CRLF + rest, BodyOffset(lines, hdr) + q) && BodyOffset(lines, hdr) + q < |head| - 2
  {
    var m := FirstMatch(lines, hdr.name);
    FoldsEndBeforeBlank(lines, hdr.name);
    var pre, post := lines[..m], lines[FoldEnd(lines, m + 1)..FirstBlank(lines)];
    JoinAppend(pre + [Replacement(hdr)], post);
    JoinSnoc(pre, Replacement(hdr));
    DelimInReplacement(Join(pre), hdr, Join(post), rest, q);
  }

  lemma {:induction false} FirstDelimOfRewritten(lines: seq<seq<byte>>, hdr: Header, head: seq<byte>, body: seq<byte>)
    requires forall i :: 0 <= i < |lines| ==> NoLF(lines[i])
    requires HasMatch(lines, hdr.name) && NoLF(hdr.name) && head == Join(RewrittenHeader(lines, hdr))
    ensures |head| >= 2 && DelimAt(head + CRLF + body, |head| - 2)
    ensures IsFirstDelim(head + CRLF + body, |head| - 2) <==> NoDelim(hdr.body + CRLF)
  {
    DelimAtBlankLine(RewrittenHeader(lines, hdr), body);
    if NoDelim(hdr.body + CRLF) {
      RewrittenHeaderIsHeaderText(lines, hdr);
      HeaderEndsAtBlankLine(RewrittenHeader(lines, hdr), body);
    } else {
      var q :| DelimAt(hdr.body + CRLF, q);
      DelimInBodySplits(lines, hdr, head, body, q);
    }
  }

  /** The shape on lines: the rewritten header, the blank line, the body; and when the first
      delimiter of the joined lines is the blank line. */
  lemma {:induction false} ReplacedLinesShape(lines: seq<seq<byte>>, hdr: Header, out: seq<byte>,
                                              head: seq<byte>, body: seq<byte>)
    requires forall i :: 0 <= i < |lines| ==> NoLF(lines[i])
    requires HasMatch(lines, hdr.name) && FirstBlank(lines) < |lines|
    requires out == Join(ReplaceLines(lines, hdr)) && head == Join(RewrittenHeader(lines, hdr))
    requires body == Join(lines[FirstBlank(lines) + 1..])
    ensures out == head + CRLF + body && |head| >= 2 && DelimAt(out, |head| - 2)
    ensures IsFirstDelim(out, |head| - 2) <==> NoDelim(hdr.body + CRLF)
  {
    var m := FirstMatch(lines, hdr.name);
    ReplacedAroundBlank(lines, hdr, m, FoldEnd(lines, m + 1), FirstBlank(lines));
    MatchedNameHasNoLF(lines[m], hdr.name);
    FirstDelimOfRewritten(lines, hdr, head, body);
  }

  /** A mail with a header/body separator whose header hdr.name is replaced: the output is the
      rewritten header, the blank line and the body lines with normalised line ends; its first
      CRLFCRLF is that separator exactly when the new body with its line end holds none. */
  lemma {:induction false} ReplacedMailShape(mail: seq<byte>, hdr: Header, out: seq<byte>,
                                             lines: seq<seq<byte>>, head: seq<byte>, body: seq<byte>)
    requires ReplaceSpec(mail, false, hdr) == Ok(out)
    requires lines == Lines(mail) && FirstBlank(lines) < |lines|
    requires HasMatch(lines, hdr.name) ==> head == Join(RewrittenHeader(lines, hdr))
    requires body == Join(lines[FirstBlank(lines) + 1..])
    ensures HasMatch(lines, hdr.name)
    ensures out == head + CRLF + body && |head| >= 2 && DelimAt(out, |head| - 2)
    ensures IsFirstDelim(out, |head| - 2) <==> NoDelim(hdr.body + CRLF)
  {
    ReplaceSucceeds(mail, hdr);
    LinesHaveNoLF(mail);
    ReplacedLinesShape(lines, hdr, out, head, body);
  }

  lemma InsertBehind(head: seq<byte>, body: seq<byte>, h: seq<byte>)
    requires |head| >= 2
    ensures InsertAt(head + CRLF + body, |head| - 2, h) == head + h + CRLF + body
  {
  }

  /** Adding the scan headers to lines rewritten in this way. */
  lemma {:induction false} InsertBehindHeader(head: seq<byte>, body: seq<byte>, chunks: seq<seq<byte>>,
                                              scanHdrs: seq<byte>)
    requires |head| >= 2 && IsFirstDelim(head + CRLF + body, |head| - 2)
    requires Flatten(chunks) == head + CRLF + body && WithinOneRead(chunks, |head| - 2)
    ensures AddHeadersSpec(chunks, false, scanHdrs) == Ok(head + scanHdrs + CRLF + body)
  {
    InsertsAtFirstDelim(chunks, scanHdrs, |head| - 2);
    InsertBehind(head, body, scanHdrs);
  }

  lemma {:induction false} InsertedBy(chunks: seq<seq<byte>>, mail: seq<byte>, scanHdrs: seq<byte>, q: nat)
    returns (p: nat)
    requires mail == Flatten(chunks) && DelimAt(mail, q) && WithinOneRead(chunks, q)
    ensures p <= q && p + 2 <= |mail| && AddHeadersSpec(chunks, false, scanHdrs) == Ok(InsertAt(mail, p, scanHdrs))
  {
    p := SearchStopsBy(chunks, q);
  }

  /** The whole rewrite of downloadAndScan when the subject changes, to text without CRLFCRLF:
      rewritten header block, then the scan headers, then the blank line and the line-normalised
      original body. */
  lemma {:induction false} RewriteEndToEnd(mail: seq<byte>, subject: Header, out: seq<byte>,
                                           chunks: seq<seq<byte>>, scanHdrs: seq<byte>,
                                           lines: seq<seq<byte>>, head: seq<byte>, body: seq<byte>)
    requires ReplaceSpec(mail, false, subject) == Ok(out)
    requires lines == Lines(mail) && FirstBlank(lines) < |lines| && NoDelim(subject.body + CRLF)
    requires HasMatch(lines, subject.name) ==> head == Join(RewrittenHeader(lines, subject))
    requires body == Join(lines[FirstBlank(lines) + 1..])
    requires Flatten(chunks) == out && WithinOneRead(chunks, |head| - 2)
    ensures AddHeadersSpec(chunks, false, scanHdrs) == Ok(head + scanHdrs + CRLF + body)
  {
    ReplacedMailShape(mail, subject, out, lines, head, body);
    InsertBehindHeader(head, body, chunks, scanHdrs);
  }

  lemma {:induction false} SplitOnLines(lines: seq<seq<byte>>, subject: Header, out: seq<byte>, chunks: seq<seq<byte>>,
                                        scanHdrs: seq<byte>, q: nat)
    returns (p: nat)
    requires HasMatch(lines, subject.name) && FirstBlank(lines) < |lines| && NoLF(subject.name)
    requires out == Join(ReplaceLines(lines, subject)) && DelimAt(subject.body + CRLF, q)
    requires Flatten(chunks) == out && WithinOneRead(chunks, BodyOffset(lines, subject) + q)
    ensures p <= BodyOffset(lines, subject) + q < |Join(RewrittenHeader(lines, subject))| - 2 <= |out| - 2
    ensures AddHeadersSpec(chunks, false, scanHdrs) == Ok(InsertAt(out, p, scanHdrs))
  {
    var m, b := FirstMatch(lines, subject.name), FirstBlank(lines);
    var head, rest := Join(RewrittenHeader(lines, subject)), Join(lines[b + 1..]);
    ReplacedAroundBlank(lines, subject, m, FoldEnd(lines, m + 1), b);
    DelimInBodySplits(lines, subject, head, rest, q);
    p := InsertedBy(chunks, out, scanHdrs, BodyOffset(lines, subject) + q);
  }

  /** Otherwise, with a CRLFCRLF of the new body within one read, the lines are inserted at or
      before it: inside the header block, so that the rest of the header becomes body. */
  lemma {:induction false} RewriteSplitsHeader(mail: seq<byte>, subject: Header, out: seq<byte>,
                                               chunks: seq<seq<byte>>, scanHdrs: seq<byte>, q: nat)
    returns (p: nat)
    requires ReplaceSpec(mail, false, subject) == Ok(out) && FirstBlank(Lines(mail)) < |Lines(mail)|
    requires DelimAt(subject.body + CRLF, q)
    requires Flatten(chunks) == out && WithinOneRead(chunks, BodyOffset(Lines(mail), subject) + q)
    ensures HasMatch(Lines(mail), subject.name)
    ensures p < |Join(RewrittenHeader(Lines(mail), subject))| - 2 <= |out| - 2
    ensures p <= BodyOffset(Lines(mail), subject) + q
    ensures AddHeadersSpec(chunks, false, scanHdrs) == Ok(InsertAt(out, p, scanHdrs))
  {
    var lines := Lines(mail);
    ReplaceSucceeds(mail, subject);
    LinesHaveNoLF(mail);
    MatchedNameHasNoLF(lines[FirstMatch(lines, subject.name)], subject.name);
    p := SplitOnLines(lines, subject, out, chunks, scanHdrs, q);
  }
}
