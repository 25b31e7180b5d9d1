/** Printing header fields as the lines of a header section
    (RFC 5322, sections 2.1.1 and 2.2). */
module HeaderPrinter {
  import opened Bytes
  import opened Wrappers

  /** The longest line allowed, its CRLF included. */
  const MAX_LINE_LENGTH := 1000

  datatype Header = Header(name: seq<byte>, body: seq<byte>)

  datatype PrintError = BadName | BadBody | TooLong
  type Printed = Result<seq<byte>, PrintError>

  /** Printable ASCII without the colon; this leaves out the space as well. */
  predicate IsHdrChar(b: byte) {
    33 <= b <= 126 && b != COLON
  }

  ghost predicate AllHdrChars(s: seq<byte>) {
    forall i :: 0 <= i < |s| ==> IsHdrChar(s[i])
  }

  function HdrCharsOnly(s: seq<byte>): (r: seq<byte>)
    ensures |r| <= |s|
    ensures AllHdrChars(r)
    ensures |r| == |s| <==> AllHdrChars(s)
    ensures |r| == |s| ==> r == s
  {
    if s == [] then []
    else
      var rest := HdrCharsOnly(s[1..]);
      assert AllHdrChars(s) <==> IsHdrChar(s[0]) && AllHdrChars(s[1..]) by {
        assert forall i :: 0 <= i < |s[1..]| ==> s[1..][i] == s[i + 1];
        assert forall i :: 1 <= i < |s| ==> s[i] == s[1..][i - 1];
      }
      if IsHdrChar(s[0]) then [s[0]] + rest else rest
  }

  function AsHeader(name: seq<byte>, body: seq<byte>): Printed {
    var nClean := HdrCharsOnly(name);
    var bClean := HdrCharsOnly(body);
    if |nClean| != |name| then Err(BadName)
    else if |bClean| != |body| then Err(BadBody)
    else
      var hdr := nClean + [COLON, SP] + bClean + CRLF;
      if |hdr| > MAX_LINE_LENGTH then Err(TooLong) else Ok(hdr)
  }

  /** What a caller can check beforehand. */
  ghost predicate Printable(h: Header) {
    AllHdrChars(h.name) && AllHdrChars(h.body) && |h.name| + |h.body| + 4 <= MAX_LINE_LENGTH
  }

  /** The line of a header without its CRLF. */
  function FieldLine(h: Header): seq<byte> {
    h.name + [COLON, SP] + h.body
  }

  function FieldLines(hdrs: seq<Header>): (r: seq<seq<byte>>)
    ensures |r| == |hdrs|
    ensures forall i :: 0 <= i < |hdrs| ==> r[i] == FieldLine(hdrs[i])
  {
    seq(|hdrs|, i requires 0 <= i < |hdrs| => FieldLine(hdrs[i]))
  }

  /** A header is accepted exactly when it is printable; a long header is refused last. */
  lemma AsHeaderAccepts(h: Header)
    ensures AsHeader(h.name, h.body).Ok? <==> Printable(h)
    ensures Printable(h) ==> AsHeader(h.name, h.body).value == FieldLine(h) + CRLF
    ensures AsHeader(h.name, h.body) == Err(TooLong) <==>
            AllHdrChars(h.name) && AllHdrChars(h.body) && |h.name| + |h.body| + 4 > MAX_LINE_LENGTH
  {
  }

  /** Only the bytes 33 to 126 other than the colon, which is 58. */
  ghost predicate AllWithin33To126(s: seq<byte>) {
    forall i :: 0 <= i < |s| ==> 33 <= s[i] <= 126 && s[i] != 58
  }

  /** The same on the bytes themselves, with the error that is reported. */
  lemma {:induction false} AsHeaderOnBytes(h: Header)
    ensures var r, long := AsHeader(h.name, h.body), |h.name| + |h.body| + 4 > 1000;
            r == if !AllWithin33To126(h.name) then Err(BadName)
                 else if !AllWithin33To126(h.body) then Err(BadBody)
                 else if long then Err(TooLong)
                 else Ok(h.name + [58, 32] + h.body + [13, 10])
  {
    assert forall s :: AllHdrChars(s) <==> AllWithin33To126(s);
    AsHeaderAccepts(h);
  }

  /** The first header that is refused decides; otherwise all lines in order. */
  function AsHeadersSpec(hdrs: seq<Header>): Printed {
    if hdrs == [] then Ok([])
    else match (AsHeader(hdrs[0].name, hdrs[0].body), AsHeadersSpec(hdrs[1..]))
      case (Err(e), _) => Err(e)
      case (_, Err(e)) => Err(e)
      case (Ok(line), Ok(rest)) => Ok(line + rest)
  }

  lemma {:induction false} AsHeadersAccepts(hdrs: seq<Header>)
    ensures AsHeadersSpec(hdrs).Ok? <==> forall i :: 0 <= i < |hdrs| ==> Printable(hdrs[i])
    ensures AsHeadersSpec(hdrs).Ok? ==> AsHeadersSpec(hdrs).value == Join(FieldLines(hdrs))
  {
    if hdrs != [] {
      AsHeaderAccepts(hdrs[0]);
      AsHeadersAccepts(hdrs[1..]);
      assert FieldLines(hdrs)[1..] == FieldLines(hdrs[1..]);
      assert (forall i :: 0 <= i < |hdrs| ==> Printable(hdrs[i])) <==>
             Printable(hdrs[0]) && (forall i :: 0 <= i < |hdrs[1..]| ==> Printable(hdrs[1..][i])) by {
        assert forall i :: 1 <= i < |hdrs| ==> hdrs[i] == hdrs[1..][i - 1];
      }
    }
  }

  lemma {:induction false} AsHeadersFirstError(hdrs: seq<Header>, i: nat)
    requires i < |hdrs| && !Printable(hdrs[i])
    requires forall j :: 0 <= j < i ==> Printable(hdrs[j])
    ensures AsHeader(hdrs[i].name, hdrs[i].body).Err?
    ensures AsHeadersSpec(hdrs) == Err(AsHeader(hdrs[i].name, hdrs[i].body).error)
  {
    AsHeaderAccepts(hdrs[0]);
    if i > 0 {
      AsHeadersFirstError(hdrs[1..], i - 1);
    }
  }

  method AsHeaders(hdrs: seq<Header>) returns (r: Printed)
    ensures r == AsHeadersSpec(hdrs)
  {
    var result: seq<byte> := [];
    for i := 0 to |hdrs|
      invariant forall j :: 0 <= j < i ==> Printable(hdrs[j])
      invariant result == Join(FieldLines(hdrs[..i]))
    {
      AsHeaderAccepts(hdrs[i]);
      var hdr := AsHeader(hdrs[i].name, hdrs[i].body);
      if hdr.Err? {
        AsHeadersFirstError(hdrs, i);
        return hdr;
      }
      JoinSnoc(FieldLines(hdrs[..i]), FieldLine(hdrs[i]));
      assert FieldLines(hdrs[..i + 1]) == FieldLines(hdrs[..i]) + [FieldLine(hdrs[i])];
      result := result + hdr.value;
    }
    AsHeadersAccepts(hdrs);
    assert hdrs[..|hdrs|] == hdrs;
    return Ok(result);
  }

  // ---- reading a section back -------------------------------------------

  function IndexColon(s: seq<byte>, from: nat := 0): (i: nat)
    requires from <= |s|
    ensures from <= i <= |s|
    ensures i < |s| ==> s[i] == COLON
    ensures forall k :: from <= k < i ==> s[k] != COLON
    decreases |s| - from
  {
    if from == |s| || s[from] == COLON then from else IndexColon(s, from + 1)
  }

  /** A line read as a field: the name up to the first colon, the body after the space. */
  function ParseField(line: seq<byte>): Option<Header> {
    var c := IndexColon(line);
    if c + 2 <= |line| && line[c + 1] == SP then Some(Header(line[..c], line[c + 2..])) else None
  }

  function ParseFields(lines: seq<seq<byte>>): Option<seq<Header>> {
    if lines == [] then Some([])
    else match (ParseField(lines[0]), ParseFields(lines[1..]))
      case (Some(h), Some(t)) => Some([h] + t)
      case _ => None
  }

  lemma FieldLineParses(h: Header)
    requires Printable(h)
    ensures ParseField(FieldLine(h)) == Some(h)
    ensures NoLF(FieldLine(h)) && CR !in FieldLine(h)
  {
    var line := FieldLine(h);
    assert line[|h.name|] == COLON && line[|h.name| + 1] == SP;
    assert forall k :: 0 <= k < |h.name| ==> line[k] == h.name[k];
    assert IndexColon(line) == |h.name|;
    assert line[..|h.name|] == h.name;
    assert line[|h.name| + 2..] == h.body;
    forall k | 0 <= k < |line|
      ensures line[k] != LF && line[k] != CR
    {
      if k < |h.name| {
        assert IsHdrChar(h.name[k]);
      } else if k >= |h.name| + 2 {
        assert line[k] == h.body[k - |h.name| - 2];
      }
    }
  }

  lemma {:induction false} FieldLinesParse(hdrs: seq<Header>)
    requires forall i :: 0 <= i < |hdrs| ==> Printable(hdrs[i])
    ensures ParseFields(FieldLines(hdrs)) == Some(hdrs)
  {
    if hdrs != [] {
      FieldLineParses(hdrs[0]);
      FieldLinesParse(hdrs[1..]);
      assert FieldLines(hdrs)[1..] == FieldLines(hdrs[1..]);
      assert [hdrs[0]] + hdrs[1..] == hdrs;
    }
  }

  /** Round trip: an accepted section read line by line gives back the headers. */
  lemma AsHeadersRoundTrip(hdrs: seq<Header>)
    requires forall i :: 0 <= i < |hdrs| ==> Printable(hdrs[i])
    ensures ParseFields(Lines(Join(FieldLines(hdrs)))) == Some(hdrs)
    ensures forall x :: x in Lines(Join(FieldLines(hdrs))) ==> |x| + 2 <= MAX_LINE_LENGTH
  {
    forall i | 0 <= i < |hdrs|
      ensures NoLF(FieldLines(hdrs)[i])
    {
      FieldLineParses(hdrs[i]);
    }
    LinesOfJoin(FieldLines(hdrs));
    FieldLinesParse(hdrs);
  }

  /** Different accepted header lists never print alike. */
  lemma AsHeadersInjective(a: seq<Header>, b: seq<Header>)
    requires forall i :: 0 <= i < |a| ==> Printable(a[i])
    requires forall i :: 0 <= i < |b| ==> Printable(b[i])
    requires Join(FieldLines(a)) == Join(FieldLines(b))
    ensures a == b
  {
    AsHeadersRoundTrip(a);
    AsHeadersRoundTrip(b);
  }

  // ---- sections that can be inserted before the blank line -----------------

  /** Whole lines that do not begin with CR: such a section ends no header early. */
  ghost predicate CleanSection(h: seq<byte>) {
    h == [] ||
    (|h| >= 2 && h[|h| - 2..] == CRLF && h[0] != CR &&
     forall j :: 0 <= j < |h| - 1 && h[j] == LF ==> h[j + 1] != CR)
  }

  lemma {:induction false} SectionIsClean(hdrs: seq<Header>)
    requires forall i :: 0 <= i < |hdrs| ==> Printable(hdrs[i])
    ensures CleanSection(Join(FieldLines(hdrs)))
    ensures hdrs != [] ==> Join(FieldLines(hdrs)) != []
    ensures NoDelim(Join(FieldLines(hdrs)))
  {
    if hdrs != [] {
      var x := FieldLine(hdrs[0]);
      var rest := Join(FieldLines(hdrs[1..]));
      assert FieldLines(hdrs)[1..] == FieldLines(hdrs[1..]);
      assert Join(FieldLines(hdrs)) == x + CRLF + rest;
      FieldLineParses(hdrs[0]);
      SectionIsClean(hdrs[1..]);
      JoinEndsWithCRLF(FieldLines(hdrs));
      var h := x + CRLF + rest;
      forall j | 0 <= j < |h| - 1 && h[j] == LF
        ensures h[j + 1] != CR
      {
        assert j > |x|;
        if j > |x| + 1 {
          assert rest[j - |x| - 2] == LF;
        }
      }
      assert h[0] == x[0];
    }
  }
}
