/** Concrete mails for which the rewriting does not do what one might expect. */
module MailWitnesses {
  import opened Bytes
  import opened HeaderInsertion
  import opened HeaderPrinter
  import opened HeaderReplacement
  import opened MailRewrite
  import opened Wrappers

  lemma {:induction false} FirstAlone(lines: seq<seq<byte>>, hdr: Header)
    requires |lines| >= 2 && Matches(lines[0], hdr.name) && !IsFold(lines[1])
    ensures HasMatch(lines, hdr.name) && ReplaceLines(lines, hdr) == [Replacement(hdr)] + lines[1..]
  {
    FirstMatchIs(lines, hdr.name, 0);
    FoldEndIs(lines, 1, 1);
    assert [] + [Replacement(hdr)] + lines[1..] == [Replacement(hdr)] + lines[1..];
  }

  /** Replacing the field on the first line, which has no folds. */
  lemma {:induction false} ReplacesFirst(lines: seq<seq<byte>>, hdr: Header)
    requires |lines| >= 2 && Matches(lines[0], hdr.name) && !IsFold(lines[1])
    requires forall i :: 0 <= i < |lines| ==> NoLF(lines[i])
    requires AllRoom(lines)
    ensures ReplaceSpec(Join(lines), false, hdr) == Ok(Replacement(hdr) + CRLF + Join(lines[1..]))
  {
    LinesOfJoin(lines);
    AllFitJoin(lines);
    FirstAlone(lines, hdr);
    ReplaceSucceeds(Join(lines), hdr);
    JoinAppend([Replacement(hdr)], lines[1..]);
    JoinOne(Replacement(hdr));
  }

  lemma {:induction false} FirstAndFold(lines: seq<seq<byte>>, hdr: Header)
    requires |lines| >= 3 && Matches(lines[0], hdr.name) && IsFold(lines[1]) && !IsFold(lines[2])
    ensures HasMatch(lines, hdr.name) && ReplaceLines(lines, hdr) == [Replacement(hdr)] + lines[2..]
  {
    FirstMatchIs(lines, hdr.name, 0);
    FoldEndIs(lines, 1, 2);
    assert [] + [Replacement(hdr)] + lines[2..] == [Replacement(hdr)] + lines[2..];
  }

  /** The same with one fold line. */
  lemma {:induction false} ReplacesFirstAndFold(lines: seq<seq<byte>>, hdr: Header)
    requires |lines| >= 3 && Matches(lines[0], hdr.name) && IsFold(lines[1]) && !IsFold(lines[2])
    requires forall i :: 0 <= i < |lines| ==> NoLF(lines[i])
    requires AllRoom(lines)
    ensures ReplaceSpec(Join(lines), false, hdr) == Ok(Replacement(hdr) + CRLF + Join(lines[2..]))
  {
    LinesOfJoin(lines);
    AllFitJoin(lines);
    FirstAndFold(lines, hdr);
    ReplaceSucceeds(Join(lines), hdr);
    JoinAppend([Replacement(hdr)], lines[2..]);
    JoinOne(Replacement(hdr));
  }

  /** A field line, the blank line and a body line: all short and without LF. */
  ghost predicate ShortMail(first: seq<byte>, name: seq<byte>) {
    Matches(first, name) && NoLF(first) && |first| < 1000
  }

  lemma {:induction false} ReplacesInShortMail(first: seq<byte>, hdr: Header)
    requires ShortMail(first, hdr.name)
    ensures ReplaceSpec(Join([first, [], [66]]), false, hdr) == Ok(Replacement(hdr) + CRLF + Join([[], [66]]))
  {
    var lines := [first, [], [66]];
    assert lines[1..] == [[], [66]];
    ReplacesFirst(lines, hdr);
  }

  lemma {:induction false} EmptyLineParts(name: seq<byte>, t: seq<byte>)
    ensures Replacement(Header(name, [97] + CRLF + (CRLF + [98]))) + CRLF + t ==
            name + [COLON, SP, 97] + CRLF + CRLF + ([98] + CRLF + t)
  {
  }

  lemma {:induction false} InsertBehindLine(line: seq<byte>, rest: seq<byte>, scanHdrs: seq<byte>)
    requires line != [] && NoLF(line)
    ensures AddHeadersSpec([line + CRLF + CRLF + rest], false, scanHdrs) == Ok(line + CRLF + scanHdrs + CRLF + rest)
  {
    var mail := line + CRLF + CRLF + rest;
    NoLFIsHeaderText(line);
    JoinOne(line);
    HeaderEndsAtBlankLine([line], rest);
    assert Flatten([mail]) == mail;
    InsertBehindHeader(line + CRLF, rest, [mail], scanHdrs);
  }

  /** A new field body with an empty line in it ends the header: the scan headers go between its
      two parts, and its second part begins the body. */
  lemma {:induction false} SubjectEndsHeader(first: seq<byte>, name: seq<byte>, scanHdrs: seq<byte>)
    requires ShortMail(first, name)
    ensures var hdr := Header(name, [97] + CRLF + (CRLF + [98]));
            var head, rest := name + [COLON, SP, 97] + CRLF, [98] + CRLF + Join([[], [66]]);
            && ReplaceSpec(Join([first, [], [66]]), false, hdr) == Ok(head + CRLF + rest)
            && AddHeadersSpec([head + CRLF + rest], false, scanHdrs) == Ok(head + scanHdrs + CRLF + rest)
  {
    ReplacesInShortMail(first, Header(name, [97] + CRLF + (CRLF + [98])));
    EmptyLineParts(name, Join([[], [66]]));
    MatchedNameHasNoLF(first, name);
    InsertBehindLine(name + [COLON, SP, 97], [98] + CRLF + Join([[], [66]]), scanHdrs);
  }

  /** A line of 16383 bytes and LF is read the first time; its copy ends in CRLF and is refused. */
  lemma {:induction false} LongLineOnlyOnce(hdr: Header, line: seq<byte>)
    requires |line| == 16383 && forall i :: 0 <= i < |line| ==> line[i] == 65
    ensures ReplaceSpec(line + [LF], false, hdr) == Ok(line + CRLF)
    ensures ReplaceSpec(line + CRLF, false, hdr) == Err(LineTooLong)
  {
    var mail := line + [LF];
    FirstLFIs(mail, |line|);
    assert mail[..|line|] == line && mail[|line| + 1..] == [];
    assert Lines(mail) == [line];
    LinesOfOne(line);
    assert !Matches(line, hdr.name);
    assert FirstBlank([line]) == 1;
    ReplaceSucceeds(mail, hdr);
    JoinOne(line);
    FirstLFIs(line + CRLF, |line| + 1);
    assert (line + CRLF)[..|line| + 1] == line + [CR];
    assert Scannable(line + CRLF) == 0;
  }

  /** A line that ends in a bare LF scans like one that ends in CRLF. */
  lemma {:induction false} BareLFLine(line: seq<byte>)
    requires line != [] && line[|line| - 1] != CR && NoLF(line) && RoomForCR(line)
    ensures Lines(line + [LF]) == [line] && AllFit(line + [LF])
  {
    var a := line + [LF];
    FirstLFIs(a, |line|);
    assert a[..|line|] == line && a[|line| + 1..] == [];
    LinesStep(a);
    AllFitStep(a);
  }

  lemma {:induction false} BareLF(line: seq<byte>, rest: seq<seq<byte>>)
    requires line != [] && line[|line| - 1] != CR && NoLF(line) && RoomForCR(line)
    requires forall i :: 0 <= i < |rest| ==> NoLF(rest[i])
    requires AllRoom(rest)
    ensures Lines(line + [LF] + Join(rest)) == [line] + rest && AllFit(line + [LF] + Join(rest))
  {
    BareLFLine(line);
    LinesAppend(line + [LF], Join(rest));
    LinesOfJoin(rest);
    AllFitAppend(line + [LF], Join(rest));
    AllFitJoin(rest);
  }

  /** The outcome depends on the lines only. */
  lemma {:induction false} SameLinesSameOutcome(a: seq<byte>, b: seq<byte>, hdr: Header)
    requires Lines(a) == Lines(b) && AllFit(a) && AllFit(b)
    ensures ReplaceSpec(a, false, hdr) == ReplaceSpec(b, false, hdr)
  {
  }

  /** So replacing the field on a first line that ends in a bare LF is the same. */
  lemma {:induction false} ReplacesFirstBare(line: seq<byte>, rest: seq<seq<byte>>, hdr: Header)
    requires line != [] && line[|line| - 1] != CR && NoLF(line) && RoomForCR(line) && Matches(line, hdr.name)
    requires rest != [] && !IsFold(rest[0]) && AllRoom(rest)
    requires forall i :: 0 <= i < |rest| ==> NoLF(rest[i])
    ensures ReplaceSpec(line + [LF] + Join(rest), false, hdr) == Ok(Replacement(hdr) + CRLF + Join(rest))
  {
    var lines := [line] + rest;
    BareLF(line, rest);
    LinesOfJoin(lines);
    AllFitJoin(lines);
    SameLinesSameOutcome(line + [LF] + Join(rest), Join(lines), hdr);
    assert lines[1..] == rest;
    ReplacesFirst(lines, hdr);
  }

  lemma {:induction false} BreakParts(name: seq<byte>, rest: seq<seq<byte>>)
    ensures Replacement(Header(name, [97, LF, 98])) + CRLF + Join(rest) ==
            name + [COLON, SP, 97] + [LF] + Join([[98]] + rest)
  {
    JoinAppend([[98]], rest);
    JoinOne([98]);
  }

  lemma {:induction false} BrokenLine(line: seq<byte>, hdr: Header)
    requires line == hdr.name + [COLON, SP, 97] && NoLF(hdr.name) && |hdr.name| < 1000
    ensures ReplaceSpec(line + [LF] + Join([[98]] + [[], [66]]), false, hdr) ==
            Ok(Replacement(hdr) + CRLF + Join([[98]] + [[], [66]]))
  {
    ReplacesFirstBare(line, [[98]] + [[], [66]], hdr);
  }

  /** A line break in the new field body that is no fold: its second line is repeated by a
      second run. */
  lemma {:induction false} BrokenSubjectRepeats(first: seq<byte>, name: seq<byte>)
    requires ShortMail(first, name)
    ensures var hdr := Header(name, [97, LF, 98]);
            var out := Replacement(hdr) + CRLF + Join([[], [66]]);
            && ReplaceSpec(Join([first, [], [66]]), false, hdr) == Ok(out)
            && ReplaceSpec(out, false, hdr) == Ok(Replacement(hdr) + CRLF + Join([[98]] + [[], [66]]))
  {
    var hdr := Header(name, [97, LF, 98]);
    ReplacesInShortMail(first, hdr);
    MatchedNameHasNoLF(first, name);
    BrokenLine(name + [COLON, SP, 97], hdr);
    BreakParts(name, [[], [66]]);
  }

  lemma {:induction false} JoinCons(x: seq<byte>, rest: seq<seq<byte>>)
    ensures Join([x] + rest) == x + CRLF + Join(rest)
  {
    assert ([x] + rest)[1..] == rest;
  }

  lemma {:induction false} JoinFour(a: seq<byte>, b: seq<byte>, c: seq<byte>)
    ensures Join([a, b, [], c]) == a + CRLF + (b + CRLF + (CRLF + (c + CRLF)))
    ensures Join([a, b, [], c][2..]) == CRLF + (c + CRLF)
  {
    var lines := [a, b, [], c];
    assert lines == [a] + [b, [], c] && [b, [], c] == [b] + [[], c] && [[], c] == [[]] + [c];
    JoinCons(a, [b, [], c]);
    JoinCons(b, [[], c]);
    JoinCons([], [c]);
    JoinOne(c);
    assert lines[2..] == [[], c];
    assert [] + CRLF + Join([c]) == CRLF + (c + CRLF);
  }

  /** "subject: a", its fold behind a tab, the blank line and "b": the field named in lower case is
      the one that is replaced, with its fold. */
  lemma {:induction false} LowerCaseSubject(mail: seq<byte>, hdr: Header)
    requires mail == [115, 117, 98, 106, 101, 99, 116, 58, 32, 97] + [13, 10] + ([9, 99] + [13, 10]
                     + ([13, 10] + ([98] + [13, 10])))
    requires hdr == Header([83, 117, 98, 106, 101, 99, 116], [120])
    ensures ReplaceSpec(mail, false, hdr) ==
            Ok([83, 117, 98, 106, 101, 99, 116] + [58, 32] + [120] + [13, 10] + ([13, 10] + ([98] + [13, 10])))
  {
    var first: seq<byte> := [115, 117, 98, 106, 101, 99, 116, 58, 32, 97];
    var lines := [first, [9, 99], [], [98]];
    MatchesInAnyCase(first, hdr.name);
    JoinFour(first, [9, 99], [98]);
    ReplacesFirstAndFold(lines, hdr);
  }

  /** Without a blank line and a match the call succeeds and replaces nothing. */
  lemma {:induction false} SucceedsWithoutReplacing(lines: seq<seq<byte>>, hdr: Header)
    requires forall i :: 0 <= i < |lines| ==>
               lines[i] != [] && NoLF(lines[i]) && RoomForCR(lines[i]) && !Matches(lines[i], hdr.name)
    ensures ReplaceSpec(Join(lines), false, hdr) == Ok(Join(lines))
  {
    LinesOfJoin(lines);
    AllFitJoin(lines);
    ReplaceSucceeds(Join(lines), hdr);
  }

  lemma {:induction false} NothingReplaced(hdr: Header)
    ensures ReplaceSpec([65] + CRLF, false, hdr) == Ok([65] + CRLF)
  {
    SucceedsWithoutReplacing([[65]], hdr);
    JoinOne([65]);
  }
}
