/** Bytes, the blank-line delimiter and the physical lines of a message
    (RFC 5322, sections 2.1 and 2.2.3). */
module Bytes {
  import opened Wrappers

  type byte = x: int | 0 <= x < 256

  const HT: byte := 9
  const LF: byte := 10
  const CR: byte := 13
  const SP: byte := 32
  const COLON: byte := 58
  const CRLF: seq<byte> := [CR, LF]

  lemma ConcatAssociates(a: seq<byte>, b: seq<byte>, c: seq<byte>)
    ensures (a + b) + c == a + (b + c)
  {
  }

  lemma SliceSnoc<T>(s: seq<T>, i: nat, j: nat)
    requires i < j <= |s|
    ensures s[i..j] == s[i..j - 1] + [s[j - 1]]
  {
  }

  lemma SliceAll<T>(s: seq<T>, i: nat)
    requires i <= |s|
    ensures s[i..|s|] == s[i..]
  {
  }

  // ---- the header/body delimiter ---------------------------------------

  /** CR LF CR LF starts at offset p of s. */
  predicate DelimAt(s: seq<byte>, p: int) {
    0 <= p && p + 4 <= |s| && s[p] == CR && s[p + 1] == LF && s[p + 2] == CR && s[p + 3] == LF
  }

  ghost predicate NoDelim(s: seq<byte>) {
    forall q :: !DelimAt(s, q)
  }

  ghost predicate IsFirstDelim(s: seq<byte>, p: int) {
    DelimAt(s, p) && forall q :: q < p ==> !DelimAt(s, q)
  }

  /** The offset bytes.Index finds for CRLFCRLF at or after from. */
  function IndexDelim(s: seq<byte>, from: nat := 0): (r: Option<nat>)
    requires from <= |s|
    ensures r.Some? ==> from <= r.value && DelimAt(s, r.value)
    ensures r.Some? ==> forall q :: from <= q < r.value ==> !DelimAt(s, q)
    ensures r.None? ==> forall q :: from <= q ==> !DelimAt(s, q)
    decreases |s| - from
  {
    if DelimAt(s, from) then Some(from)
    else if from == |s| then None
    else IndexDelim(s, from + 1)
  }

  // ---- sequences of chunks ---------------------------------------------

  function Flatten(chunks: seq<seq<byte>>): seq<byte> {
    if chunks == [] then [] else chunks[0] + Flatten(chunks[1..])
  }

  lemma {:induction false} FlattenAppend(a: seq<seq<byte>>, b: seq<seq<byte>>)
    ensures Flatten(a + b) == Flatten(a) + Flatten(b)
  {
    if a == [] {
      assert a + b == b;
    } else {
      assert (a + b)[1..] == a[1..] + b;
      FlattenAppend(a[1..], b);
    }
  }

  lemma FlattenSnoc(a: seq<seq<byte>>, x: seq<byte>)
    ensures Flatten(a + [x]) == Flatten(a) + x
  {
    FlattenAppend(a, [x]);
    assert Flatten([x]) == x;
  }

  // ---- physical lines ----------------------------------------------------

  /** The offset of the first LF at or after from, or the end of s. */
  function IndexLF(s: seq<byte>, from: nat := 0): (i: nat)
    requires from <= |s|
    ensures from <= i <= |s|
    ensures forall k :: from <= k < i ==> s[k] != LF
    ensures i < |s| ==> s[i] == LF
    decreases |s| - from
  {
    if from == |s| || s[from] == LF then from else IndexLF(s, from + 1)
  }

  function DropCR(raw: seq<byte>): seq<byte> {
    if raw != [] && raw[|raw| - 1] == CR then raw[..|raw| - 1] else raw
  }

  /** The line contents a line scanner yields: no LF and one trailing CR less; an
      unterminated rest is a line if it is not empty. */
  function Lines(s: seq<byte>): (r: seq<seq<byte>>)
    decreases |s|
  {
    var i := IndexLF(s);
    if s == [] then []
    else if i == |s| then [DropCR(s)]
    else [DropCR(s[..i])] + Lines(s[i + 1..])
  }

  ghost predicate NoLF(s: seq<byte>) {
    LF !in s
  }

  /** Every line terminated by CRLF. */
  function Join(lines: seq<seq<byte>>): seq<byte> {
    if lines == [] then [] else lines[0] + CRLF + Join(lines[1..])
  }

  lemma {:induction false} JoinAppend(a: seq<seq<byte>>, b: seq<seq<byte>>)
    ensures Join(a + b) == Join(a) + Join(b)
  {
    if a == [] {
      assert a + b == b;
    } else {
      assert (a + b)[1..] == a[1..] + b;
      JoinAppend(a[1..], b);
    }
  }

  lemma JoinOne(x: seq<byte>)
    ensures Join([x]) == x + CRLF
  {
  }

  lemma JoinSnoc(a: seq<seq<byte>>, x: seq<byte>)
    ensures Join(a + [x]) == Join(a) + (x + CRLF)
  {
    JoinAppend(a, [x]);
    JoinOne(x);
  }

  lemma {:induction false} JoinEndsWithCRLF(lines: seq<seq<byte>>)
    requires lines != []
    ensures |Join(lines)| >= 2
    ensures Join(lines)[|Join(lines)| - 2..] == CRLF
  {
    if |lines| == 1 {
      JoinOne(lines[0]);
      assert lines == [lines[0]];
    } else {
      JoinEndsWithCRLF(lines[1..]);
    }
  }

  /** The lines of a text that has a line feed: the first one and those of the rest. */
  lemma LinesStep(s: seq<byte>)
    requires IndexLF(s) < |s|
    ensures Lines(s) == [DropCR(s[..IndexLF(s)])] + Lines(s[IndexLF(s) + 1..])
  {
  }

  lemma ConsNoLF(x: seq<byte>, rest: seq<seq<byte>>)
    requires NoLF(x)
    requires forall i :: 0 <= i < |rest| ==> NoLF(rest[i])
    ensures forall i :: 0 <= i < |[x] + rest| ==> NoLF(([x] + rest)[i])
  {
  }

  lemma {:induction false} LinesHaveNoLF(s: seq<byte>)
    ensures forall i :: 0 <= i < |Lines(s)| ==> NoLF(Lines(s)[i])
    decreases |s|
  {
    var i := IndexLF(s);
    assert NoLF(s[..i]);
    if i < |s| {
      LinesHaveNoLF(s[i + 1..]);
      ConsNoLF(DropCR(s[..i]), Lines(s[i + 1..]));
      LinesStep(s);
    } else if s != [] {
      assert s[..i] == s;
      assert Lines(s) == [DropCR(s)];
    }
  }

  lemma FirstLFIs(s: seq<byte>, i: nat)
    requires i < |s| && s[i] == LF && forall k :: 0 <= k < i ==> s[k] != LF
    ensures IndexLF(s) == i
  {
    assert !(IndexLF(s) < i);
  }

  /** Text that ends a line can be split off before scanning. */
  lemma {:induction false} LinesAppend(a: seq<byte>, b: seq<byte>)
    requires a == [] || a[|a| - 1] == LF
    ensures Lines(a + b) == Lines(a) + Lines(b)
    decreases |a|
  {
    if a == [] {
      assert a + b == b;
    } else {
      var i := IndexLF(a);
      assert a[|a| - 1] == LF;
      FirstLFIs(a + b, i);
      assert (a + b)[..i] == a[..i];
      assert (a + b)[i + 1..] == a[i + 1..] + b;
      LinesAppend(a[i + 1..], b);
    }
  }

  lemma LinesOfOne(x: seq<byte>)
    requires NoLF(x)
    ensures Lines(x + CRLF) == [x]
  {
    FirstLFIs(x + CRLF, |x| + 1);
    assert (x + CRLF)[..|x| + 1] == x + [CR];
    assert (x + CRLF)[|x| + 2..] == [];
  }

  /** Scanning joined lines gives the lines back. */
  lemma {:induction false} LinesOfJoin(lines: seq<seq<byte>>)
    requires forall i :: 0 <= i < |lines| ==> NoLF(lines[i])
    ensures Lines(Join(lines)) == lines
  {
    if lines != [] {
      LinesOfOne(lines[0]);
      LinesAppend(lines[0] + CRLF, Join(lines[1..]));
      LinesOfJoin(lines[1..]);
    }
  }
}
