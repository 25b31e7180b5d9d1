/** The headers that carry a scan result: their order does not depend on the order in
    which the symbol map is iterated (asHdrMap, sortHeaders, addScanResultHeaders). */
module ScanHeaders {
  import opened Bytes
  import opened HeaderPrinter

  datatype Symbol = Symbol(name: seq<byte>, score: real)

  /** How scores are printed is a parameter. */
  type Format = real -> seq<byte>

  // "X-rspamd-iscan-", "Symbol-" and "Score"
  const HDR_PREFIX: seq<byte> := [88, 45, 114, 115, 112, 97, 109, 100, 45, 105, 115, 99, 97, 110, 45]
  const SYMBOL: seq<byte> := [83, 121, 109, 98, 111, 108, 45]
  const SCORE: seq<byte> := [83, 99, 111, 114, 101]
  const HDR_RSPAMD_SCORE := HDR_PREFIX + SCORE

  // ---- one header per symbol --------------------------------------------------

  function SymbolHeader(prefix: seq<byte>, s: Symbol, fmt: Format): Header {
    Header(prefix + s.name, fmt(s.score))
  }

  function HdrMapSpec(prefix: seq<byte>, scores: seq<Symbol>, skipZero: bool, fmt: Format): seq<Header> {
    if scores == [] then []
    else
      var rest := HdrMapSpec(prefix, scores[..|scores| - 1], skipZero, fmt);
      var v := scores[|scores| - 1];
      if skipZero && v.score == 0.0 then rest else rest + [SymbolHeader(prefix, v, fmt)]
  }

  /** scores lists the values of the symbol map in the order of one iteration. */
  method AsHdrMap(prefix: seq<byte>, scores: seq<Symbol>, skipZero: bool, fmt: Format) returns (result: seq<Header>)
    ensures result == HdrMapSpec(prefix, scores, skipZero, fmt)
  {
    result := [];
    for i := 0 to |scores|
      invariant result == HdrMapSpec(prefix, scores[..i], skipZero, fmt)
    {
      assert scores[..i + 1][..i] == scores[..i];
      var v := scores[i];
      if skipZero && v.score == 0.0 {
        continue;
      }
      result := result + [SymbolHeader(prefix, v, fmt)];
    }
    assert scores[..|scores|] == scores;
  }

  /** Which headers these are: one for each value whose score is not to be skipped. */
  lemma {:induction false} HdrMapHolds(prefix: seq<byte>, scores: seq<Symbol>, skipZero: bool, fmt: Format, h: Header)
    ensures h in HdrMapSpec(prefix, scores, skipZero, fmt) <==>
            exists s :: s in scores && !(skipZero && s.score == 0.0) && h == Header(prefix + s.name, fmt(s.score))
  {
    if scores != [] {
      var n := |scores| - 1;
      HdrMapHolds(prefix, scores[..n], skipZero, fmt, h);
      assert scores == scores[..n] + [scores[n]];
    }
  }

  /** Symbols with different names get headers with different names, so no header occurs twice. */
  lemma {:induction false} HdrMapDistinct(prefix: seq<byte>, scores: seq<Symbol>, skipZero: bool, fmt: Format)
    requires forall i, j :: 0 <= i < j < |scores| ==> scores[i].name != scores[j].name
    ensures var r := HdrMapSpec(prefix, scores, skipZero, fmt);
            forall i, j :: 0 <= i < j < |r| ==> r[i].name != r[j].name
  {
    if scores != [] {
      var n := |scores| - 1;
      var rest := HdrMapSpec(prefix, scores[..n], skipZero, fmt);
      HdrMapDistinct(prefix, scores[..n], skipZero, fmt);
      forall i | 0 <= i < |rest|
        ensures rest[i].name != prefix + scores[n].name
      {
        HdrMapHolds(prefix, scores[..n], skipZero, fmt, rest[i]);
        var s :| s in scores[..n] && rest[i] == Header(prefix + s.name, fmt(s.score));
        assert (prefix + s.name)[|prefix|..] == s.name;
        assert (prefix + scores[n].name)[|prefix|..] == scores[n].name;
      }
    }
  }

  lemma {:induction false} HdrMapAppend(prefix: seq<byte>, a: seq<Symbol>, b: seq<Symbol>, skipZero: bool, fmt: Format)
    ensures HdrMapSpec(prefix, a + b, skipZero, fmt) ==
            HdrMapSpec(prefix, a, skipZero, fmt) + HdrMapSpec(prefix, b, skipZero, fmt)
    decreases |b|
  {
    if b == [] {
      assert a + b == a;
    } else {
      var n := |b| - 1;
      assert (a + b)[..|a + b| - 1] == a + b[..n];
      HdrMapAppend(prefix, a, b[..n], skipZero, fmt);
    }
  }

  lemma HdrMapWithout(prefix: seq<byte>, a: seq<Symbol>, v: Symbol, b: seq<Symbol>, skipZero: bool, fmt: Format)
    ensures multiset(HdrMapSpec(prefix, a + [v] + b, skipZero, fmt)) ==
            multiset(HdrMapSpec(prefix, a + b, skipZero, fmt)) + multiset(HdrMapSpec(prefix, [v], skipZero, fmt))
  {
    HdrMapAppend(prefix, a + [v], b, skipZero, fmt);
    HdrMapAppend(prefix, a, [v], skipZero, fmt);
    HdrMapAppend(prefix, a, b, skipZero, fmt);
  }

  lemma TakeOut(q: seq<Symbol>, v: Symbol) returns (a: seq<Symbol>, b: seq<Symbol>)
    requires v in multiset(q)
    ensures q == a + [v] + b && multiset(a + b) == multiset(q) - multiset{v}
  {
    var i :| 0 <= i < |q| && q[i] == v;
    a, b := q[..i], q[i + 1..];
    assert q == a + [v] + b;
  }

  lemma TakeOutLast(p: seq<Symbol>)
    requires p != []
    ensures p == p[..|p| - 1] + [p[|p| - 1]] + [] && p[..|p| - 1] + [] == p[..|p| - 1]
    ensures multiset(p[..|p| - 1]) == multiset(p) - multiset{p[|p| - 1]} && p[|p| - 1] in multiset(p)
  {
    assert p == p[..|p| - 1] + [p[|p| - 1]];
  }

  /** Two iterations over the same symbols give the same headers, in some order. */
  lemma {:induction false} HdrMapOrderFree(prefix: seq<byte>, p: seq<Symbol>, q: seq<Symbol>, skipZero: bool,
                                           fmt: Format)
    requires multiset(p) == multiset(q)
    ensures multiset(HdrMapSpec(prefix, p, skipZero, fmt)) == multiset(HdrMapSpec(prefix, q, skipZero, fmt))
    decreases |p|
  {
    if p == [] {
      assert |multiset(q)| == 0;
      assert q == [];
    } else {
      var v, p' := p[|p| - 1], p[..|p| - 1];
      TakeOutLast(p);
      var a, b := TakeOut(q, v);
      HdrMapOrderFree(prefix, p', a + b, skipZero, fmt);
      HdrMapWithout(prefix, a, v, b, skipZero, fmt);
      HdrMapWithout(prefix, p', v, [], skipZero, fmt);
    }
  }

  // ---- the comparator ------------------------------------------------------------

  /** strings.Compare: negative, zero or positive. */
  function CompareBytes(a: seq<byte>, b: seq<byte>): int {
    if a == [] then (if b == [] then 0 else -1)
    else if b == [] then 1
    else if a[0] != b[0] then (if a[0] < b[0] then -1 else 1)
    else CompareBytes(a[1..], b[1..])
  }

  /** The dictionary order of byte strings: a is a proper prefix of b, or smaller at the first byte in
      which they differ. */
  ghost predicate Before(a: seq<byte>, b: seq<byte>) {
    || (|a| < |b| && a == b[..|a|])
    || exists k :: 0 <= k < |a| && k < |b| && a[..k] == b[..k] && a[k] < b[k]
  }

  lemma BeforeInTails(a: seq<byte>, b: seq<byte>)
    requires a != [] && b != [] && a[0] == b[0]
    ensures Before(a, b) <==> Before(a[1..], b[1..])
  {
    var a', b' := a[1..], b[1..];
    if |a| < |b| {
      assert a == [a[0]] + a' && b[..|a|] == [b[0]] + b'[..|a'|];
    }
    if k :| 0 <= k < |a| && k < |b| && a[..k] == b[..k] && a[k] < b[k] {
      assert a'[..k - 1] == a[..k][1..] && b'[..k - 1] == b[..k][1..];
      assert a'[k - 1] < b'[k - 1];
    }
    if k :| 0 <= k < |a'| && k < |b'| && a'[..k] == b'[..k] && a'[k] < b'[k] {
      assert a[..k + 1] == [a[0]] + a'[..k] && b[..k + 1] == [b[0]] + b'[..k];
      assert a[k + 1] < b[k + 1];
    }
  }

  lemma {:induction false} CompareIsDictionaryOrder(a: seq<byte>, b: seq<byte>)
    ensures CompareBytes(a, b) < 0 <==> Before(a, b)
  {
    if a != [] && b != [] {
      if a[0] == b[0] {
        BeforeInTails(a, b);
        CompareIsDictionaryOrder(a[1..], b[1..]);
      } else {
        assert a[..0] == b[..0];
      }
    }
  }

  function CompareHeaders(a: Header, b: Header): int {
    if a.name == HDR_RSPAMD_SCORE then 1
    else if b.name == HDR_RSPAMD_SCORE then -1
    else
      var score := CompareBytes(a.name, b.name);
      if score == 0 then CompareBytes(a.body, b.body) else score
  }

  predicate IsScore(h: Header) {
    h.name == HDR_RSPAMD_SCORE
  }

  lemma {:induction false} CompareBytesLaws(a: seq<byte>, b: seq<byte>)
    ensures CompareBytes(a, b) == 0 <==> a == b
    ensures CompareBytes(a, b) == -CompareBytes(b, a)
  {
    if a != [] && b != [] {
      CompareBytesLaws(a[1..], b[1..]);
      assert a == [a[0]] + a[1..] && b == [b[0]] + b[1..];
    }
  }

  lemma {:induction false} CompareBytesTransitive(a: seq<byte>, b: seq<byte>, c: seq<byte>)
    requires CompareBytes(a, b) <= 0 && CompareBytes(b, c) <= 0
    ensures CompareBytes(a, c) <= 0
    ensures CompareBytes(a, b) < 0 || CompareBytes(b, c) < 0 ==> CompareBytes(a, c) < 0
  {
    if a != [] && b != [] && c != [] && a[0] == b[0] == c[0] {
      CompareBytesTransitive(a[1..], b[1..], c[1..]);
    }
  }

  /** On headers of which at most one is the score header, the comparator is a strict order
      whose only ties are equal headers, and the score header is the greatest. */
  lemma CompareHeadersLaws(a: Header, b: Header, c: Header)
    requires !(IsScore(a) && IsScore(b)) && !(IsScore(b) && IsScore(c)) && !(IsScore(a) && IsScore(c))
    ensures CompareHeaders(a, b) == 0 <==> a == b
    ensures CompareHeaders(a, b) < 0 <==> CompareHeaders(b, a) > 0
    ensures CompareHeaders(a, b) <= 0 && CompareHeaders(b, c) <= 0 ==> CompareHeaders(a, c) <= 0
  {
    CompareBytesLaws(a.name, b.name);
    CompareBytesLaws(a.body, b.body);
    CompareBytesLaws(b.name, c.name);
    if CompareHeaders(a, b) <= 0 && CompareHeaders(b, c) <= 0 && !IsScore(c) {
      CompareBytesTransitive(a.name, b.name, c.name);
      CompareBytesLaws(a.name, c.name);
      if a.name == c.name {
        CompareBytesTransitive(a.body, b.body, c.body);
      }
    }
  }

  /** Two score headers are each greater than the other: with them the comparator is no order. */
  lemma TwoScoresConfuse(a: Header, b: Header)
    ensures CompareHeaders(a, b) > 0 && CompareHeaders(b, a) > 0 <==> IsScore(a) && IsScore(b)
  {
    CompareBytesLaws(a.name, b.name);
    CompareBytesLaws(a.body, b.body);
  }

  // ---- sorted permutations ---------------------------------------------------------

  /** What slices.SortFunc leaves behind: no element is smaller than the one before it. */
  ghost predicate SortedHeaders(hdrs: seq<Header>) {
    forall i :: 0 <= i && i + 1 < |hdrs| ==> CompareHeaders(hdrs[i + 1], hdrs[i]) >= 0
  }

  ghost predicate InOrder(a: Header, b: Header) {
    Before(a.name, b.name) || (a.name == b.name && (a.body == b.body || Before(a.body, b.body)))
  }

  /** The names of neighbouring headers stand in dictionary order, and the bodies if the names are
      equal; only the score header may stand behind a greater one. */
  ghost predicate Ascending(hdrs: seq<Header>) {
    forall i :: 0 <= i && i + 1 < |hdrs| && !IsScore(hdrs[i + 1]) ==>
      !IsScore(hdrs[i]) && InOrder(hdrs[i], hdrs[i + 1])
  }

  lemma SortedIsAscending(hdrs: seq<Header>)
    requires SortedHeaders(hdrs)
    ensures Ascending(hdrs)
  {
    forall i | 0 <= i && i + 1 < |hdrs| && !IsScore(hdrs[i + 1])
      ensures !IsScore(hdrs[i]) && InOrder(hdrs[i], hdrs[i + 1])
    {
      var a, b := hdrs[i], hdrs[i + 1];
      assert CompareHeaders(b, a) >= 0;
      CompareBytesLaws(a.name, b.name);
      CompareBytesLaws(a.body, b.body);
      CompareIsDictionaryOrder(a.name, b.name);
      CompareIsDictionaryOrder(a.body, b.body);
    }
  }

  ghost predicate AtMostOneScore(hdrs: seq<Header>) {
    forall i, j :: 0 <= i < j < |hdrs| ==> !(IsScore(hdrs[i]) && IsScore(hdrs[j]))
  }

  /** In a sorted list every header is at most as great as those behind it. */
  lemma {:induction false} SortedPairs(hdrs: seq<Header>, i: nat, j: nat)
    requires SortedHeaders(hdrs) && AtMostOneScore(hdrs) && i < j < |hdrs|
    ensures CompareHeaders(hdrs[i], hdrs[j]) <= 0 && !IsScore(hdrs[i])
    decreases j - i
  {
    var k := i + 1;
    assert CompareHeaders(hdrs[k], hdrs[i]) >= 0;
    if !IsScore(hdrs[i]) {
      CompareHeadersLaws(hdrs[i], hdrs[k], hdrs[i]);
      CompareHeadersLaws(hdrs[k], hdrs[i], hdrs[i]);
      if k < j {
        SortedPairs(hdrs, k, j);
        CompareHeadersLaws(hdrs[i], hdrs[k], hdrs[j]);
      }
    }
  }

  lemma Position(h: Header, q: seq<Header>) returns (j: nat)
    requires h in multiset(q)
    ensures j < |q| && q[j] == h
  {
    j :| 0 <= j < |q| && q[j] == h;
  }

  lemma TailMultiset(p: seq<Header>)
    requires p != []
    ensures multiset(p[1..]) == multiset(p) - multiset{p[0]}
    ensures [p[0]] + p[1..] == p
  {
    assert p == [p[0]] + p[1..];
  }

  lemma SameHead(p: seq<Header>, q: seq<Header>)
    requires p != [] && q != [] && multiset(p) == multiset(q)
    requires SortedHeaders(p) && SortedHeaders(q)
    requires AtMostOneScore(p) && AtMostOneScore(q)
    ensures p[0] == q[0]
  {
    assert p[0] in multiset(p) && q[0] in multiset(q);
    var j := Position(p[0], q);
    var i := Position(q[0], p);
    if i > 0 && j > 0 {
      SortedPairs(q, 0, j);
      SortedPairs(p, 0, i);
      CompareHeadersLaws(p[0], q[0], q[0]);
      CompareHeadersLaws(q[0], p[0], p[0]);
    }
  }

  /** Sorted permutations of one header list are equal. */
  lemma {:induction false} SortedUnique(p: seq<Header>, q: seq<Header>)
    requires multiset(p) == multiset(q)
    requires SortedHeaders(p) && SortedHeaders(q)
    requires AtMostOneScore(p) && AtMostOneScore(q)
    ensures p == q
    decreases |p|
  {
    assert |p| == |multiset(p)| == |multiset(q)| == |q|;
    if p != [] {
      SameHead(p, q);
      TailMultiset(p);
      TailMultiset(q);
      SortedUnique(p[1..], q[1..]);
    }
  }

  // ---- sorting -----------------------------------------------------------------------

  function Insert(h: Header, hdrs: seq<Header>): seq<Header> {
    if hdrs == [] || CompareHeaders(h, hdrs[|hdrs| - 1]) >= 0 then hdrs + [h]
    else Insert(h, hdrs[..|hdrs| - 1]) + [hdrs[|hdrs| - 1]]
  }

  lemma {:induction false} InsertPermutes(h: Header, hdrs: seq<Header>)
    ensures multiset(Insert(h, hdrs)) == multiset(hdrs) + multiset{h}
    ensures Insert(h, hdrs) != []
    ensures Insert(h, hdrs)[|Insert(h, hdrs)| - 1] == h ||
            (hdrs != [] && Insert(h, hdrs)[|Insert(h, hdrs)| - 1] == hdrs[|hdrs| - 1])
  {
    if hdrs != [] {
      var n := |hdrs| - 1;
      InsertPermutes(h, hdrs[..n]);
      assert hdrs == hdrs[..n] + [hdrs[n]];
    }
  }

  lemma {:induction false} InsertSorts(h: Header, hdrs: seq<Header>)
    requires SortedHeaders(hdrs)
    requires forall i :: 0 <= i < |hdrs| ==> !(IsScore(h) && IsScore(hdrs[i]))
    ensures SortedHeaders(Insert(h, hdrs))
  {
    if hdrs != [] && CompareHeaders(h, hdrs[|hdrs| - 1]) < 0 {
      var n := |hdrs| - 1;
      InsertSorts(h, hdrs[..n]);
      InsertPermutes(h, hdrs[..n]);
      CompareHeadersLaws(h, hdrs[n], h);
      assert n > 0 ==> CompareHeaders(hdrs[n], hdrs[n - 1]) >= 0;
    }
  }

  lemma InsertNextSorts(hdrs: seq<Header>, i: nat, r: seq<Header>)
    requires i < |hdrs| && AtMostOneScore(hdrs) && multiset(r) == multiset(hdrs[..i]) && SortedHeaders(r)
    ensures SortedHeaders(Insert(hdrs[i], r))
  {
    forall j | 0 <= j < |r|
      ensures !(IsScore(hdrs[i]) && IsScore(r[j]))
    {
      assert r[j] in multiset(r);
      assert r[j] in hdrs[..i];
    }
    InsertSorts(hdrs[i], r);
  }

  /** One sorting algorithm that meets the contract of slices.SortFunc: always a permutation, and
      sorted if the comparator is an order on the list; by SortedUnique every other algorithm then
      gives the same list. */
  method SortHeaders(hdrs: seq<Header>) returns (r: seq<Header>)
    ensures multiset(r) == multiset(hdrs)
    ensures AtMostOneScore(hdrs) ==> SortedHeaders(r) && Ascending(r)
  {
    r := [];
    for i := 0 to |hdrs|
      invariant multiset(r) == multiset(hdrs[..i])
      invariant AtMostOneScore(hdrs) ==> SortedHeaders(r)
    {
      InsertPermutes(hdrs[i], r);
      if AtMostOneScore(hdrs) {
        InsertNextSorts(hdrs, i, r);
      }
      assert hdrs[..i + 1] == hdrs[..i] + [hdrs[i]];
      r := Insert(hdrs[i], r);
    }
    assert hdrs[..|hdrs|] == hdrs;
    if AtMostOneScore(hdrs) {
      SortedIsAscending(r);
    }
  }

  // ---- the whole section ---------------------------------------------------------------

  /** The headers of a scan result before sorting; the symbol prefix differs from the score's name. */
  function ScanHdrs(symbols: seq<Symbol>, score: real, fmt: Format): seq<Header> {
    HdrMapSpec(HDR_PREFIX + SYMBOL, symbols, true, fmt) + [Header(HDR_RSPAMD_SCORE, fmt(score))]
  }

  lemma {:induction false} SymbolHeadersAreNoScores(symbols: seq<Symbol>, fmt: Format)
    ensures forall i :: 0 <= i < |HdrMapSpec(HDR_PREFIX + SYMBOL, symbols, true, fmt)| ==>
                          !IsScore(HdrMapSpec(HDR_PREFIX + SYMBOL, symbols, true, fmt)[i])
  {
    if symbols != [] {
      var v := symbols[|symbols| - 1];
      SymbolHeadersAreNoScores(symbols[..|symbols| - 1], fmt);
      var n := HDR_PREFIX + SYMBOL + v.name;
      assert n[16] == 121 && HDR_RSPAMD_SCORE[16] == 99;
    }
  }

  lemma TwicePresent(r: seq<Header>, i: nat, j: nat)
    requires i < j < |r| && r[i] == r[j]
    ensures multiset(r)[r[i]] >= 2
  {
    assert r == r[..i] + [r[i]] + r[i + 1..j] + [r[j]] + r[j + 1..];
  }

  /** A permutation of the scan headers has the score header once; sorted, it is the last. */
  lemma ScoreIsLast(symbols: seq<Symbol>, score: real, fmt: Format, r: seq<Header>)
    requires multiset(r) == multiset(ScanHdrs(symbols, score, fmt))
    ensures AtMostOneScore(r)
    ensures SortedHeaders(r) ==> r != [] && r[|r| - 1] == Header(HDR_RSPAMD_SCORE, fmt(score))
  {
    var hs := ScanHdrs(symbols, score, fmt);
    var h := Header(HDR_RSPAMD_SCORE, fmt(score));
    var syms := HdrMapSpec(HDR_PREFIX + SYMBOL, symbols, true, fmt);
    SymbolHeadersAreNoScores(symbols, fmt);
    assert h !in syms;
    assert multiset(r)[h] == 1;
    forall i, j | 0 <= i < j < |r|
      ensures !(IsScore(r[i]) && IsScore(r[j]))
    {
      if IsScore(r[i]) && IsScore(r[j]) {
        assert r[i] in multiset(r) && r[j] in multiset(r);
        assert r[i] in hs && r[j] in hs;
        TwicePresent(r, i, j);
        assert false;
      }
    }
    if SortedHeaders(r) {
      assert h in multiset(r);
      var k := Position(h, r);
      if k + 1 < |r| {
        SortedPairs(r, k, k + 1);
        assert false;
      }
    }
  }

  /** The headers of a scan result: "X-rspamd-iscan-Score", and "X-rspamd-iscan-Symbol-" with its name
      for each symbol whose score is not zero. */
  ghost predicate IsScanHeader(symbols: seq<Symbol>, score: real, fmt: Format, h: Header) {
    || h == Header([88, 45, 114, 115, 112, 97, 109, 100, 45, 105, 115, 99, 97, 110, 45, 83, 99, 111, 114, 101],
                   fmt(score))
    || exists s :: s in symbols && s.score != 0.0 &&
         h == Header([88, 45, 114, 115, 112, 97, 109, 100, 45, 105, 115, 99, 97, 110, 45]
                     + [83, 121, 109, 98, 111, 108, 45] + s.name, fmt(s.score))
  }

  lemma {:induction false} ScanHdrsHold(symbols: seq<Symbol>, score: real, fmt: Format, r: seq<Header>, h: Header)
    requires multiset(r) == multiset(ScanHdrs(symbols, score, fmt))
    ensures h in r <==> IsScanHeader(symbols, score, fmt, h)
  {
    HdrMapHolds(HDR_PREFIX + SYMBOL, symbols, true, fmt, h);
    assert h in r <==> h in multiset(r);
    assert h in ScanHdrs(symbols, score, fmt) <==> h in multiset(ScanHdrs(symbols, score, fmt));
    assert HDR_PREFIX + SYMBOL ==
      [88, 45, 114, 115, 112, 97, 109, 100, 45, 105, 115, 99, 97, 110, 45, 83, 121, 109, 98, 111, 108, 45];
    assert HDR_RSPAMD_SCORE ==
      [88, 45, 114, 115, 112, 97, 109, 100, 45, 105, 115, 99, 97, 110, 45, 83, 99, 111, 114, 101];
  }

  /** The bytes to insert, or the failure, for one iteration order of the symbol map. */
  method ScanResultSection(symbols: seq<Symbol>, score: real, fmt: Format)
    returns (r: Printed, ghost sorted: seq<Header>)
    ensures multiset(sorted) == multiset(ScanHdrs(symbols, score, fmt)) && SortedHeaders(sorted)
    ensures Ascending(sorted) && forall h :: h in sorted <==> IsScanHeader(symbols, score, fmt, h)
    ensures r == AsHeadersSpec(sorted)
  {
    var hdrs := AsHdrMap(HDR_PREFIX + SYMBOL, symbols, true, fmt);
    hdrs := hdrs + [Header(HDR_RSPAMD_SCORE, fmt(score))];
    ScoreIsLast(symbols, score, fmt, hdrs);
    hdrs := SortHeaders(hdrs);
    sorted := hdrs;
    SortedIsAscending(sorted);
    forall h
      ensures h in sorted <==> IsScanHeader(symbols, score, fmt, h)
    {
      ScanHdrsHold(symbols, score, fmt, sorted, h);
    }
    r := AsHeaders(hdrs);
  }

  /** Any two iteration orders and any two sorting runs give the same headers, hence the same
      bytes or the same failure, and the score header is the last of them. */
  lemma {:induction false} ScanSectionCanonical(p: seq<Symbol>, q: seq<Symbol>, score: real, fmt: Format,
                                                r1: seq<Header>, r2: seq<Header>)
    requires multiset(p) == multiset(q)
    requires multiset(r1) == multiset(ScanHdrs(p, score, fmt)) && SortedHeaders(r1)
    requires multiset(r2) == multiset(ScanHdrs(q, score, fmt)) && SortedHeaders(r2)
    ensures r1 == r2 && AsHeadersSpec(r1) == AsHeadersSpec(r2)
    ensures r1 != [] && r1[|r1| - 1] == Header(HDR_RSPAMD_SCORE, fmt(score))
    ensures Ascending(r1) && forall i :: 0 <= i < |r1| - 1 ==> !IsScore(r1[i])
  {
    SortedIsAscending(r1);
    HdrMapOrderFree(HDR_PREFIX + SYMBOL, p, q, true, fmt);
    ScoreIsLast(p, score, fmt, r1);
    ScoreIsLast(q, score, fmt, r2);
    SortedUnique(r1, r2);
  }
}
