/** Replacing the first occurrence of a header, folded lines included (replaceHeader). */
module HeaderReplacement {
  import opened Bytes
  import opened HeaderPrinter
  import opened Wrappers

  /** The scanner gives up on a line when its buffer holds this many bytes and no LF. */
  const MAX_SCAN := 16384

  datatype ReplaceError = HeaderNotFound | LineTooLong | ReadFailed
  type Replaced = Result<seq<byte>, ReplaceError>

  // ---- matching and folding -------------------------------------------------

  function Upper(b: byte): byte {
    if 97 <= b <= 122 then b - 32 else b
  }

  /** The line starts with the header's name, in whatever case, and a colon. */
  predicate Matches(line: seq<byte>, name: seq<byte>) {
    && |name| < |line| && line[|name|] == COLON
    && forall i :: 0 <= i < |name| ==> Upper(line[i]) == Upper(name[i])
  }

  /** The same in terms of the letters a..z (97..122) and A..Z (65..90) and of the colon (58). */
  ghost predicate NamedInAnyCase(line: seq<byte>, name: seq<byte>) {
    && |name| < |line| && line[|name|] == 58
    && forall i :: 0 <= i < |name| ==>
         || line[i] == name[i]
         || (65 <= name[i] <= 90 && line[i] == name[i] + 32)
         || (97 <= name[i] <= 122 && line[i] == name[i] - 32)
  }

  lemma MatchesInAnyCase(line: seq<byte>, name: seq<byte>)
    ensures Matches(line, name) <==> NamedInAnyCase(line, name)
  {
    if Matches(line, name) {
      forall i | 0 <= i < |name|
        ensures || line[i] == name[i]
                || (65 <= name[i] <= 90 && line[i] == name[i] + 32)
                || (97 <= name[i] <= 122 && line[i] == name[i] - 32)
      {
        assert Upper(line[i]) == Upper(name[i]);
      }
    }
  }

  predicate IsFold(line: seq<byte>) {
    line != [] && (line[0] == SP || line[0] == HT)
  }

  function Replacement(hdr: Header): seq<byte> {
    FieldLine(hdr)
  }

  // ---- the specification on lines -------------------------------------------

  /** The first blank line at or after from, or the end. */
  function FirstBlank(lines: seq<seq<byte>>, from: nat := 0): (b: nat)
    requires from <= |lines|
    ensures from <= b <= |lines|
    ensures forall i :: from <= i < b ==> lines[i] != []
    ensures b < |lines| ==> lines[b] == []
    decreases |lines| - from
  {
    if from == |lines| || lines[from] == [] then from else FirstBlank(lines, from + 1)
  }

  /** The first matching line at or after from, or the end. */
  function FirstMatch(lines: seq<seq<byte>>, name: seq<byte>, from: nat := 0): (m: nat)
    requires from <= |lines|
    ensures from <= m <= |lines|
    ensures forall i :: from <= i < m ==> !Matches(lines[i], name)
    ensures m < |lines| ==> Matches(lines[m], name)
    decreases |lines| - from
  {
    if from == |lines| || Matches(lines[from], name) then from else FirstMatch(lines, name, from + 1)
  }

  /** The end of the maximal run of fold lines that starts at from. */
  function FoldEnd(lines: seq<seq<byte>>, from: nat): (e: nat)
    requires from <= |lines|
    ensures from <= e <= |lines|
    ensures forall i :: from <= i < e ==> IsFold(lines[i])
    ensures e < |lines| ==> !IsFold(lines[e])
    decreases |lines| - from
  {
    if from == |lines| || !IsFold(lines[from]) then from else FoldEnd(lines, from + 1)
  }

  predicate HasMatch(lines: seq<seq<byte>>, name: seq<byte>) {
    FirstMatch(lines, name) < FirstBlank(lines)
  }

  /** One replacement line for the first header field of that name and its fold lines. */
  function ReplaceLines(lines: seq<seq<byte>>, hdr: Header): seq<seq<byte>> {
    var m := FirstMatch(lines, hdr.name);
    if HasMatch(lines, hdr.name) then lines[..m] + [Replacement(hdr)] + lines[FoldEnd(lines, m + 1)..] else lines
  }

  predicate Fits(raw: seq<byte>) {
    |raw| < MAX_SCAN
  }

  /** The number of lines the scanner yields before it meets one that does not fit its buffer. */
  function Scannable(s: seq<byte>): (k: nat)
    ensures k <= |Lines(s)|
    decreases |s|
  {
    var i := IndexLF(s);
    if s == [] || !Fits(s[..i]) then 0
    else if i == |s| then 1
    else 1 + Scannable(s[i + 1..])
  }

  /** The outcome for the lines the scanner yields. */
  function ReplaceOutcome(lines: seq<seq<byte>>, tooLong: bool, readFails: bool, hdr: Header): Replaced {
    if FirstBlank(lines) < |lines| && !HasMatch(lines, hdr.name) then Err(HeaderNotFound)
    else if tooLong then Err(LineTooLong)
    else if readFails then Err(ReadFailed)
    else Ok(Join(ReplaceLines(lines, hdr)))
  }

  function ReplaceSpec(mail: seq<byte>, readFails: bool, hdr: Header): Replaced {
    ReplaceOutcome(Lines(mail)[..Scannable(mail)], Scannable(mail) < |Lines(mail)|, readFails, hdr)
  }

  /** Some line is blank, and none before it carries the name. */
  ghost predicate LacksField(lines: seq<seq<byte>>, name: seq<byte>) {
    exists b :: 0 <= b < |lines| && lines[b] == [] && forall i :: 0 <= i < b ==> !NamedInAnyCase(lines[i], name)
  }

  lemma {:induction false} LacksFieldIff(lines: seq<seq<byte>>, name: seq<byte>)
    ensures LacksField(lines, name) <==> FirstBlank(lines) < |lines| && !HasMatch(lines, name)
  {
    forall i | 0 <= i < |lines|
      ensures Matches(lines[i], name) <==> NamedInAnyCase(lines[i], name)
    {
      MatchesInAnyCase(lines[i], name);
    }
  }

  /** Which error is reported: the missing field first, and a long line before a read error. */
  lemma {:induction false} ReplaceErrors(mail: seq<byte>, readFails: bool, hdr: Header)
    ensures var lines := Lines(mail)[..Scannable(mail)];
            && (ReplaceSpec(mail, readFails, hdr) == Err(HeaderNotFound) <==> LacksField(lines, hdr.name))
            && (ReplaceSpec(mail, readFails, hdr) == Err(LineTooLong) <==>
                  Scannable(mail) < |Lines(mail)| && !LacksField(lines, hdr.name))
            && (ReplaceSpec(mail, readFails, hdr) == Err(ReadFailed) <==>
                  readFails && Scannable(mail) == |Lines(mail)| && !LacksField(lines, hdr.name))
  {
    LacksFieldIff(Lines(mail)[..Scannable(mail)], hdr.name);
  }

  // ---- the loop -------------------------------------------------------------

  /** The landmarks of a mail: its scannable lines, the number of lines before the first
      blank one, the line that is replaced (if any) and the end of its fold lines. */
  datatype Plan = Plan(lines: seq<seq<byte>>, blank: nat, hit: bool, at: nat, foldEnd: nat)
  {
    ghost predicate Valid(name: seq<byte>) {
      && blank <= |lines|
      && (forall i :: 0 <= i < blank ==> lines[i] != [])
      && (blank < |lines| ==> lines[blank] == [])
      && (if hit then
            && at < foldEnd <= blank
            && (forall i :: 0 <= i < at ==> !Matches(lines[i], name))
            && Matches(lines[at], name)
            && (forall i :: at < i < foldEnd ==> IsFold(lines[i]))
            && (foldEnd < |lines| ==> !IsFold(lines[foldEnd]))
          else
            forall i :: 0 <= i < blank ==> !Matches(lines[i], name))
    }

    /** The lines that the line at n contributes to the output. */
    ghost function Piece(n: nat, hdr: Header): seq<seq<byte>>
      requires n < |lines|
    {
      if hit && n == at then [Replacement(hdr)] else if hit && at < n < foldEnd then [] else [lines[n]]
    }

    ghost function Written(n: nat, hdr: Header): seq<seq<byte>>
      requires n <= |lines|
    {
      if n == 0 then [] else Written(n - 1, hdr) + Piece(n - 1, hdr)
    }

    /** The three flags of the loop after n lines. */
    ghost predicate FlagsAgree(n: nat, replaced: bool, skip: bool, ended: bool) {
      && ended == (blank < n)
      && replaced == (hit && at < n)
      && (!ended ==> skip == (replaced && n <= foldEnd))
      && (ended ==> replaced)
    }
  }

  ghost function PlanOf(lines: seq<seq<byte>>, hdr: Header): Plan {
    var m := FirstMatch(lines, hdr.name);
    var has := HasMatch(lines, hdr.name);
    Plan(lines, FirstBlank(lines), has, m, if has then FoldEnd(lines, m + 1) else 0)
  }

  lemma PlanIsValid(lines: seq<seq<byte>>, hdr: Header)
    ensures PlanOf(lines, hdr).Valid(hdr.name)
  {
    var plan := PlanOf(lines, hdr);
    assert plan.hit ==> plan.foldEnd <= plan.blank by {
      assert plan.blank < |lines| ==> !IsFold(lines[plan.blank]);
    }
  }

  lemma {:induction false} WrittenBefore(plan: Plan, n: nat, hdr: Header)
    requires n <= |plan.lines| && (plan.hit ==> n <= plan.at)
    ensures plan.Written(n, hdr) == plan.lines[..n]
  {
    if n > 0 {
      WrittenBefore(plan, n - 1, hdr);
      SliceSnoc(plan.lines, 0, n);
    }
  }

  lemma {:induction false} WrittenFolds(plan: Plan, n: nat, hdr: Header)
    requires plan.hit && plan.at < n <= plan.foldEnd <= |plan.lines|
    ensures plan.Written(n, hdr) == plan.lines[..plan.at] + [Replacement(hdr)]
  {
    if n > plan.at + 1 {
      WrittenFolds(plan, n - 1, hdr);
    } else {
      WrittenBefore(plan, plan.at, hdr);
    }
  }

  lemma {:induction false} WrittenAfter(plan: Plan, n: nat, hdr: Header, front: seq<seq<byte>>)
    requires plan.hit && plan.at < plan.foldEnd <= n <= |plan.lines|
    requires front == plan.lines[..plan.at] + [Replacement(hdr)]
    ensures plan.Written(n, hdr) == front + plan.lines[plan.foldEnd..n]
  {
    if n > plan.foldEnd {
      WrittenAfter(plan, n - 1, hdr, front);
      SliceSnoc(plan.lines, plan.foldEnd, n);
    } else {
      WrittenFolds(plan, n, hdr);
    }
  }

  /** The lines written one by one are the specified lines. */
  lemma {:induction false} WrittenAll(plan: Plan, hdr: Header)
    requires plan.hit ==> plan.at < plan.foldEnd <= |plan.lines|
    ensures plan.Written(|plan.lines|, hdr) ==
            if plan.hit then plan.lines[..plan.at] + [Replacement(hdr)] + plan.lines[plan.foldEnd..] else plan.lines
  {
    if plan.hit {
      WrittenAfter(plan, |plan.lines|, hdr, plan.lines[..plan.at] + [Replacement(hdr)]);
      SliceAll(plan.lines, plan.foldEnd);
    } else {
      WrittenBefore(plan, |plan.lines|, hdr);
      SliceAll(plan.lines, 0);
    }
  }

  /** What the flags make of the line at n: w was written before it, w' with it. */
  ghost predicate LineStep(plan: Plan, n: nat, hdr: Header, w: seq<seq<byte>>, w': seq<seq<byte>>,
                           replaced: bool, skip: bool, ended: bool)
    requires n < |plan.lines|
  {
    var line := plan.lines[n];
    if line == [] then
      if !replaced then plan.blank < |plan.lines| && !plan.hit
      else w' == w + [line] && plan.FlagsAgree(n + 1, replaced, skip, true)
    else if ended then
      w' == w + [line] && plan.FlagsAgree(n + 1, replaced, skip, true)
    else if skip && IsFold(line) then
      w' == w && plan.FlagsAgree(n + 1, replaced, true, false)
    else if !replaced && Matches(line, hdr.name) then
      w' == w + [Replacement(hdr)] && plan.FlagsAgree(n + 1, true, true, false)
    else
      w' == w + [line] && plan.FlagsAgree(n + 1, replaced, false, false)
  }

  /** The flags say what becomes of each line. */
  lemma LineByFlags(plan: Plan, n: nat, hdr: Header, replaced: bool, skip: bool, ended: bool)
    requires n < |plan.lines| && plan.Valid(hdr.name) && plan.FlagsAgree(n, replaced, skip, ended)
    ensures LineStep(plan, n, hdr, plan.Written(n, hdr), plan.Written(n + 1, hdr), replaced, skip, ended)
  {
    assert plan.Written(n, hdr) + [] == plan.Written(n, hdr);
  }

  lemma AllWritten(plan: Plan, hdr: Header) returns (w: seq<seq<seq<byte>>>)
    ensures |w| == |plan.lines| + 1 && forall n :: 0 <= n < |w| ==> w[n] == plan.Written(n, hdr)
  {
    w := seq(|plan.lines| + 1, n requires 0 <= n <= |plan.lines| => plan.Written(n, hdr));
  }

  /** What is written before each line and in the end. */
  lemma {:induction false} Prefixes(lines: seq<seq<byte>>, hdr: Header) returns (w: seq<seq<seq<byte>>>)
    ensures |w| == |lines| + 1 && w[0] == [] && w[|lines|] == ReplaceLines(lines, hdr)
    ensures forall n, replaced, skip, ended ::
              0 <= n < |lines| && PlanOf(lines, hdr).FlagsAgree(n, replaced, skip, ended) ==>
                LineStep(PlanOf(lines, hdr), n, hdr, w[n], w[n + 1], replaced, skip, ended)
  {
    var plan := PlanOf(lines, hdr);
    PlanIsValid(lines, hdr);
    WrittenAll(plan, hdr);
    w := AllWritten(plan, hdr);
    forall n, replaced, skip, ended | 0 <= n < |lines| && plan.FlagsAgree(n, replaced, skip, ended)
      ensures LineStep(plan, n, hdr, w[n], w[n + 1], replaced, skip, ended)
    {
      LineByFlags(plan, n, hdr, replaced, skip, ended);
    }
  }

  /** One more line is written, or the blank one. */
  lemma OneMoreLine(written: seq<seq<byte>>, line: seq<byte>, out: seq<byte>)
    requires out == Join(written)
    ensures out + (line + CRLF) == Join(written + [line])
    ensures line == [] ==> out + CRLF == Join(written + [line])
  {
    JoinSnoc(written, line);
    assert line == [] ==> line + CRLF == CRLF;
  }

  /** The loop over the lines the scanner yields; tooLong is the scanner's error afterwards. */
  method ReplaceInLines(lines: seq<seq<byte>>, tooLong: bool, readFails: bool, hdr: Header) returns (r: Replaced)
    ensures r == ReplaceOutcome(lines, tooLong, readFails, hdr)
  {
    ghost var plan := PlanOf(lines, hdr);
    ghost var written := Prefixes(lines, hdr);
    var replacement := Replacement(hdr) + CRLF;
    var replaced := false;
    var skipContinuation := false; // inside the fold lines of the replaced header
    var headerEnded := false;      // behind the blank line
    var out: seq<byte> := [];
    for n := 0 to |lines|
      invariant plan.FlagsAgree(n, replaced, skipContinuation, headerEnded)
      invariant out == Join(written[n])
    {
      var line := lines[n];
      assert LineStep(plan, n, hdr, written[n], written[n + 1], replaced, skipContinuation, headerEnded);
      OneMoreLine(written[n], line, out);
      if line == [] {
        if !replaced {
          return Err(HeaderNotFound);
        }
        out := out + CRLF;
        headerEnded := true;
        continue;
      }
      if headerEnded {
        out := out + (line + CRLF);
        continue;
      }
      if skipContinuation {
        if IsFold(line) {
          continue;
        }
        skipContinuation := false;
      }
      if !replaced && Matches(line, hdr.name) {
        skipContinuation := true;
        OneMoreLine(written[n], Replacement(hdr), out);
        out := out + replacement;
        replaced := true;
      } else {
        out := out + (line + CRLF);
      }
    }
    if tooLong {
      return Err(LineTooLong);
    }
    if readFails {
      return Err(ReadFailed);
    }
    return Ok(out);
  }

  method ReplaceHeader(mail: seq<byte>, readFails: bool, hdr: Header) returns (r: Replaced)
    ensures r == ReplaceSpec(mail, readFails, hdr)
    ensures r == Err(HeaderNotFound) <==> LacksField(Lines(mail)[..Scannable(mail)], hdr.name)
  {
    var k := Scannable(mail);
    ReplaceErrors(mail, readFails, hdr);
    r := ReplaceInLines(Lines(mail)[..k], k < |Lines(mail)|, readFails, hdr);
  }
}
