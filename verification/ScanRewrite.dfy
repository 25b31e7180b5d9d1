/** What downloadAndScan makes of a mail: the copy that is uploaded in its place. */
module ScanRewrite {
  import opened Bytes
  import opened HeaderInsertion
  import opened HeaderPrinter
  import opened HeaderReplacement
  import opened MailRewrite
  import opened Mailboxes
  import opened ScanHeaders
  import opened Wrappers

  /** rspamd's answer; symbols in the order in which the symbol map is iterated. */
  datatype CheckResult = CheckResult(score: real, subject: seq<byte>, symbols: seq<Symbol>)

  // "Subject"
  const SUBJECT: seq<byte> := [83, 117, 98, 106, 101, 99, 116]

  /** The steps of one rewrite: the mail after the subject was replaced, the reads addHeaders
      does on it, the sorted headers, their lines, and the result. */
  datatype Rewrite = Rewrite(mid: seq<byte>, chunks: seq<seq<byte>>, sorted: seq<Header>,
                             section: seq<byte>, copy: seq<byte>)

  predicate RewritesSubject(item: Item, result: CheckResult) {
    result.subject != [] && item.subject != Some(result.subject)
  }

  /** The mail as addHeaders gets it. */
  ghost predicate IsMid(item: Item, result: CheckResult, mid: seq<byte>)
    requires !Malformed(item)
  {
    if RewritesSubject(item, result)
    then ReplaceSpec(item.body.value, false, Header(SUBJECT, result.subject)) == Ok(mid)
    else mid == item.body.value
  }

  /** rw is a successful rewrite of the mail for this result. */
  ghost predicate RewriteOf(fmt: Format, item: Item, result: CheckResult, rw: Rewrite) {
    && !Malformed(item)
    && IsMid(item, result, rw.mid)
    && multiset(rw.sorted) == multiset(ScanHdrs(result.symbols, result.score, fmt)) && SortedHeaders(rw.sorted)
    && AsHeadersSpec(rw.sorted) == Ok(rw.section)
    && Flatten(rw.chunks) == rw.mid
    && AddHeadersSpec(rw.chunks, false, rw.section) == Ok(rw.copy)
  }

  /** The subject can be replaced, if it must be, and every scan header can be printed. */
  ghost predicate CanRewrite(fmt: Format, item: Item, result: CheckResult)
    requires !Malformed(item)
  {
    && (result.subject != [] && item.subject != Some(result.subject) ==>
          ReplaceSpec(item.body.value, false, Header(SUBJECT, result.subject)).Ok?)
    && forall h :: h in ScanHdrs(result.symbols, result.score, fmt) ==> Printable(h)
  }

  /** out is the mail with its field "Subject" replaced. */
  ghost predicate SubjectReplaced(mail: seq<byte>, subject: seq<byte>, out: seq<byte>) {
    ReplaceSpec(mail, false, Header([83, 117, 98, 106, 101, 99, 116], subject)) == Ok(out)
  }

  /** When the subject is replaced: rspamd gave one, and it is not the one of the envelope. Then the
      field "Subject" is replaced; otherwise the mail goes on as it is. */
  lemma MidIs(item: Item, result: CheckResult, mid: seq<byte>)
    requires !Malformed(item)
    ensures result.subject != [] && item.subject != Some(result.subject) ==>
              (IsMid(item, result, mid) <==>
                 SubjectReplaced(item.body.value, result.subject, mid))
    ensures result.subject == [] || item.subject == Some(result.subject) ==>
              (IsMid(item, result, mid) <==> mid == item.body.value)
  {
  }

  lemma RefusedHeader(fmt: Format, item: Item, result: CheckResult, sorted: seq<Header>)
    requires !Malformed(item) && multiset(sorted) == multiset(ScanHdrs(result.symbols, result.score, fmt))
    requires AsHeadersSpec(sorted).Err?
    ensures !CanRewrite(fmt, item, result)
  {
    AsHeadersAccepts(sorted);
    var i :| 0 <= i < |sorted| && !Printable(sorted[i]);
    assert sorted[i] in multiset(sorted);
  }

  /** The copy without the lines of the scan section is the mail with at most its subject
      replaced, and the last line of the section carries the score. */
  lemma CopyConserves(fmt: Format, item: Item, result: CheckResult, rw: Rewrite) returns (p: nat)
    requires RewriteOf(fmt, item, result, rw)
    ensures p + 2 <= |rw.mid| && DelimAt(rw.mid, p) && rw.copy == rw.mid[..p + 2] + rw.section + rw.mid[p + 2..]
    ensures result.subject != [] && item.subject != Some(result.subject) ==>
              SubjectReplaced(item.body.value, result.subject, rw.mid)
    ensures result.subject == [] || item.subject == Some(result.subject) ==> rw.mid == item.body.value
    ensures rw.section == Join(FieldLines(rw.sorted))
    ensures Ascending(rw.sorted) && forall h :: h in rw.sorted <==> IsScanHeader(result.symbols, result.score, fmt, h)
    ensures rw.sorted != [] && rw.sorted[|rw.sorted| - 1] == Header(HDR_RSPAMD_SCORE, fmt(result.score))
  {
    p := ChunkedDelim(rw.chunks).value;
    AsHeadersAccepts(rw.sorted);
    ScoreIsLast(result.symbols, result.score, fmt, rw.sorted);
    SortedIsAscending(rw.sorted);
    forall h
      ensures h in rw.sorted <==> IsScanHeader(result.symbols, result.score, fmt, h)
    {
      ScanHdrsHold(result.symbols, result.score, fmt, rw.sorted, h);
    }
  }

  /** A mail with a header/body separator whose subject is rewritten to text without CRLFCRLF: the
      copy is the header with the subject replaced, the scan headers, the blank line and the body
      lines. */
  lemma {:induction false} CopyEndToEnd(fmt: Format, item: Item, result: CheckResult, rw: Rewrite,
                                        lines: seq<seq<byte>>, head: seq<byte>, body: seq<byte>)
    requires RewriteOf(fmt, item, result, rw) && NoDelim(result.subject + CRLF)
    requires result.subject != [] && item.subject != Some(result.subject)
    requires lines == Lines(item.body.value) && FirstBlank(lines) < |lines|
    requires HasMatch(lines, SUBJECT) ==> head == Join(RewrittenHeader(lines, Header(SUBJECT, result.subject)))
    requires body == Join(lines[FirstBlank(lines) + 1..]) && WithinOneRead(rw.chunks, |head| - 2)
    ensures HasMatch(lines, SUBJECT) && rw.copy == head + rw.section + CRLF + body
  {
    var subject := Header(SUBJECT, result.subject);
    ReplacedMailShape(item.body.value, subject, rw.mid, lines, head, body);
    RewriteEndToEnd(item.body.value, subject, rw.mid, rw.chunks, rw.section, lines, head, body);
  }
}
