# rspamd-iscan: a verified model

rspamd-iscan fetches mails from an IMAP scan box, has rspamd score them, rewrites their header,
moves the originals to a backup box and uploads the rewritten copies to the inbox or the spam box.
Around this pipeline runs a monitor with IDLE, timeouts, shutdown and retries. This project models
these parts in Dafny and proves what they keep, over all inputs, all interleavings and whole runs.
`dafny verify dfyconfig.toml` checks everything.

## Mail bytes

Mails are `seq<byte>`. `HeaderPrinter` prints header fields (`AsHeader`, `AsHeaders`),
`HeaderInsertion` inserts a section before the blank line while reading in chunks, and
`HeaderReplacement` replaces one field by a loop over lines with three flags. The loops are methods
proved against specification functions on the whole mail; `MailRewrite` and `ScanRewrite` prove the
laws between those functions, up to the shape of an uploaded copy; `MailWitnesses` has concrete mails for
which they fail. `ScanHeaders` shows that the scan headers do not depend on the iteration order of a map
or on the sorting algorithm. How a reader cuts the mail into chunks is a parameter of the insertion,
under the control of an adversary.

## Mailboxes and pipeline

`Mailboxes` is the server: a map from slots (mailbox and UID) to mails, and the selected mailbox. A
failing MOVE or APPEND may have had its effect or not; other clients act between any two commands.
`PipelineTraces` says which commands the pipeline issues at which stage; a trace may be cut off
anywhere and a new phase may begin, so crashes, timeouts and cancellations are included.
`PipelineInvariant`, `PipelineSafety`, `PipelineLimits`, `PipelineScan` and `PipelineLearn` prove what holds
over all traces. `ImapSession` and `Pipeline` are the imperative side: classes whose methods follow the
program, with a server that decides freely, and whose `Valid()` says that all they have done is such a
trace; so every lemma about reachable runs holds of them (`ImapSession.SessionIsReached`). Every method
keeps the trace there was, so several passes make one run. `Pipeline` also keeps the ledger of
temporary files and calls the verified rewriting methods.

## Monitor and shutdown

`Protocol` is one interleaved transition system with a logical clock: the goroutine of Monitor, the
goroutines it starts for phases, for IDLE and for its end, the goroutine that closes the transport, the
caller of Stop, the handler of mailbox updates and the server. `ProtocolSession`, `ProtocolChannels`,
`ProtocolShutdown`, `ProtocolWakeups` and `ProtocolTiming` each state an inductive invariant and draw the
conclusions; `ProtocolStop`, `ProtocolStopExact` and `ProtocolResponse` follow a run from a given state on.
`ProtocolLoop` shows that what can be observed of Monitor is a run of the sequential program it is written as;
`ProtocolLearning` and `ProtocolPutOff` say when it learns.
The rules for IDLE are those of RFC 2177, section 3.

## Retry

`Retry.Runner` is the runner with its two fields; they are a function of the whole history of errors.

## Where the code does not do what one might expect

- A CRLFCRLF that is cut by two reads is missed by `addHeaders`; the headers then go before a later
  one, if there is one, or the call fails (`HeaderInsertion.CutDelimiterMissed`; the exact condition is
  `HeaderInsertion.InsertsAtFirstDelim`). For a file read in full buffers of 4096 bytes this happens
  exactly if the offset of the delimiter modulo 4096 is 4093 or more (`HeaderInsertion.FullReadsCut`, and
  `HeaderInsertion.FullReadsMiss` for mails that are refused for this reason).
- A new subject that, followed by its CRLF, holds CRLFCRLF is written as it is: `addHeaders` then splits
  the header inside the Subject field and the rest of the header becomes body
  (`MailWitnesses.SubjectEndsHeader`, `MailRewrite.RewriteSplitsHeader`; the exact condition, on the new
  subject alone, is in `MailRewrite.ReplacedMailShape`).
- `replaceHeader` succeeds without replacing anything if the mail has no blank line and no match, and it
  turns every line end into CRLF (`MailRewrite.ReplaceSucceedsIff`, `MailWitnesses.NothingReplaced`).
- `replaceHeader` applied to its own output is not always the identity: a line of 16383 bytes that ended in
  LF is refused the second time, because it ends in CRLF now (`MailWitnesses.LongLineOnlyOnce`), and a line
  break in the new body that is no fold is repeated (`MailWitnesses.BrokenSubjectRepeats`). The exact
  condition on the mail and the new header is `MailRewrite.Repeatable`, by
  `MailRewrite.ReplaceIdempotentIff`.
- `AsHeader` follows RFC 2822, section 2.2, by its comment, which allows spaces in a field body; its
  filter refuses every body with a space (`HeaderPrinter.AsHeadersAccepts`).
- `validate` accepts a scan box that is also the backup or the spam box; then originals or copies are
  scanned again and uploaded twice (`PipelineLimits.UploadedAtMostOnceIff`).
- The comment in `validate` says that one box for ham, spam and backup works fine; if the ham box is the
  backup box, learning moves the originals out of it to the inbox (`PipelineLimits.OriginalsStayIff`).
- Two score headers would make the comparator of `sortHeaders` inconsistent
  (`ScanHeaders.TwoScoresConfuse`); `addScanResultHeaders` only ever makes one (`ScanHeaders.ScoreIsLast`).
- `Stop` does not always wait for Monitor, although its comment says so: it can return 2S after its call,
  while Monitor runs on until 3S after the cancellation (`ProtocolStop.StopMayReturnFirst`). It waits in
  every run that follows its cancellation exactly if at that moment what Monitor waits for is answered, or
  the start of its monitor fails, or its last wait ends within S (`ProtocolStopExact.StopWaitsIff`, with the
  condition `ProtocolStop.Answered`).
- Monitor does not always learn soon after the learn interval, although it sets a timer for it: if another
  case of its select is ready as well, that one may be taken, any number of times
  (`ProtocolPutOff.LearningCanBePutOff`). It learns within the interval and 6O + 8S, and 2O + 3S more for each
  time this happened (`ProtocolLearning.LearnsInTime`).
- A well-formed mail that can never be rewritten, such as one without a header, stays in the scan box for
  ever (`PipelineScan.UnrewritableStays`), and each pass that comes to it ends its loop there, so the mails
  behind it are not processed by that pass (`PipelineScan.BlockedByUnrewritable`,
  `PipelineScan.OneByteIsUnrewritable`).

## Model

| member | source | states |
|---|---|---|
| HeaderPrinter.AsHeaderAccepts | internal/mail/mail.go:33-53 | a header is accepted exactly if all its characters are 33..126 without the colon and the line with CRLF has at most 1000 bytes; TooLong is reported exactly if only the length is wrong |
| HeaderPrinter.AsHeaderOnBytes | internal/mail/mail.go:33-53 | the outcome in terms of bytes: the name is checked first, then the body, each for bytes outside 33..126 and for byte 58, then the length against 1000; otherwise name, ": ", body, CRLF |
| HeaderPrinter.AsHeadersAccepts | internal/mail/mail.go:55-69 | a header list is accepted exactly if each header is, and then gives their lines in order |
| HeaderPrinter.AsHeadersFirstError | internal/mail/mail.go:55-69 | otherwise the error is that of the first header that is refused |
| HeaderPrinter.AsHeaders | internal/mail/mail.go:55-69 | the loop computes that function of the list |
| HeaderPrinter.HdrCharsOnly | internal/mail/mail.go:277-286 | the filter keeps header characters only, and keeps the length exactly if there are no others |
| HeaderPrinter.AsHeadersRoundTrip | internal/mail/mail.go:33-69 | splitting the printed bytes into lines and each line at its first colon gives back the list; every line with its CRLF has at most 1000 bytes |
| HeaderPrinter.AsHeadersInjective | internal/mail/mail.go:33-69 | two accepted lists with the same bytes are equal |
| HeaderPrinter.SectionIsClean | internal/mail/mail.go:33-69 | a printed section holds no CRLFCRLF and ends no header early |
| HeaderInsertion.AddHeaders | internal/mail/mail.go:105-163 | the loop over the reads computes the chunk-wise insertion, its errors included |
| HeaderInsertion.ChunkedDelimExists | internal/mail/mail.go:112-138 | the search succeeds exactly if some single read holds CRLFCRLF |
| HeaderInsertion.InsertsIffSomeReadHolds | internal/mail/mail.go:105-163 | without a read error the call succeeds exactly if some read holds the bytes 13, 10, 13, 10, and reports a missing header end otherwise; a read error fails it in any case |
| HeaderInsertion.ChunkedDelimIsFirstUncut | internal/mail/mail.go:112-138 | and stops at the first CRLFCRLF of the mail that no read boundary cuts |
| HeaderInsertion.InsertsAtFirstDelim | internal/mail/mail.go:105-163 | that is the first CRLFCRLF of the mail exactly if it lies within one read; then the headers go before its blank line |
| HeaderInsertion.InsertionConserves | internal/mail/mail.go:105-163 | on every success, taking the inserted bytes out again gives back the input |
| HeaderInsertion.CutDelimiterMissed | internal/mail/mail.go:112-138 | a mail and reads for which the headers are inserted at a later CRLFCRLF, in the body |
| HeaderInsertion.FullReadsCut | internal/mail/mail.go:109-138 | if all reads but the last fill the buffer of 4096 bytes, the delimiter at p is uncut exactly if p modulo 4096 is at most 4092 |
| HeaderInsertion.FullReadsMiss | internal/mail/mail.go:109-138 | mails read in this way whose only CRLFCRLF is cut, so that the call fails |
| HeaderInsertion.FirstDelimAfterInsertion | internal/mail/mail.go:105-163 | after inserting a clean section the first CRLFCRLF is directly behind it |
| HeaderInsertion.InsertionComposes | internal/mail/mail.go:105-163 | inserting is an action of concatenation, with the empty section as identity |
| HeaderInsertion.AddingTwiceIsAddingBoth | internal/mail/mail.go:55-163 | adding two printed sections one after the other equals adding both at once |
| HeaderReplacement.MatchesInAnyCase | internal/mail/mail.go:249-249 | a line matches exactly if the colon stands behind as many bytes as the name has, each the same as in the name or the same letter in the other case |
| HeaderReplacement.PlanIsValid | internal/mail/mail.go:198-275 | the landmarks (first blank line, first match before it, end of its folds) are what their names say |
| HeaderReplacement.LineByFlags | internal/mail/mail.go:210-252 | what the three flags make of one line is what the landmarks say, and the flags stay right |
| HeaderReplacement.WrittenAll | internal/mail/mail.go:198-275 | line by line output is: the lines before the match, one replacement line, the lines behind its folds; or all lines if nothing matches |
| HeaderReplacement.ReplaceErrors | internal/mail/mail.go:208-270 | which error is reported: a blank line before any line with the name in any case, else a line that does not fit the scanner, else a read error |
| HeaderReplacement.ReplaceInLines | internal/mail/mail.go:198-275 | the loop with the three flags computes the outcome on lines, which ReplaceErrors and WrittenAll describe |
| HeaderReplacement.ReplaceHeader | internal/mail/mail.go:198-275 | the same for the bytes of a mail with the scanner's line rules and its 16384-byte limit; the field is not found exactly if a blank line precedes every line with the name in any case |
| MailRewrite.ReplaceSucceedsIff | internal/mail/mail.go:198-275 | replacing succeeds exactly if all lines fit the scanner and, given a blank line, a line that carries the name in upper or lower case precedes it |
| MailRewrite.ReplaceIdempotentIff | internal/mail/mail.go:198-275 | replacing again in the output changes nothing exactly if every kept line has room for a CR and, if a field is replaced, its new lines fit the scanner and its new body has no line break other than folds: a condition on the mail and the new header alone |
| MailWitnesses.LowerCaseSubject | internal/mail/mail.go:198-275 | a mail, byte by byte, whose field "subject" with a fold behind a tab is replaced by the field Subject |
| MailWitnesses.LongLineOnlyOnce | internal/mail/mail.go:198-275 | a line of 16383 bytes and LF is accepted, its own output refused |
| MailWitnesses.BrokenSubjectRepeats | internal/mail/mail.go:198-275 | a new body with a line break that is no fold: a second run repeats its second line |
| MailWitnesses.SucceedsWithoutReplacing | internal/mail/mail.go:198-275 | lines without a blank one and without a match are written unchanged, and the call succeeds |
| MailWitnesses.NothingReplaced | internal/mail/mail.go:198-275 | a mail of one line for which that happens, for every new header |
| MailRewrite.HeaderEndsAtBlankLine | internal/mail/mail.go:198-275 | header lines that are not empty and hold no CRLFCRLF, joined and followed by a blank line, have their first CRLFCRLF right there |
| MailRewrite.ReplacedMailShape | internal/mail/mail.go:198-275 | the output is the rewritten header, the blank line and the body with CRLF line ends, and its first CRLFCRLF is that separator exactly if the new body with its line end holds none |
| MailRewrite.RewriteEndToEnd | internal/iscan/client.go:456-477 | replacing the subject by text without CRLFCRLF and then adding headers gives rewritten header, added lines, blank line, body |
| MailRewrite.RewriteSplitsHeader | internal/iscan/client.go:456-477 | with a CRLFCRLF of the new subject in one read the lines are inserted at or before it, inside the header |
| MailWitnesses.SubjectEndsHeader | internal/iscan/client.go:456-477 | a new subject with an empty line in it: the added lines go between its two parts, and its second part begins the body |
| ScanHeaders.AsHdrMap | internal/iscan/client.go:240-255 | one header for each symbol, those with score zero skipped |
| ScanHeaders.HdrMapHolds | internal/iscan/client.go:240-255 | these headers are exactly the prefix with the name, and the score, of the symbols whose score is not zero |
| ScanHeaders.HdrMapDistinct | internal/iscan/client.go:240-255 | symbols with different names give headers with different names, so none occurs twice |
| ScanHeaders.HdrMapOrderFree | internal/iscan/client.go:240-255 | two iteration orders of the symbol map give the same multiset of headers |
| ScanHeaders.CompareIsDictionaryOrder | internal/iscan/client.go:288-293 | the comparison of names and bodies is negative exactly if the first is a proper prefix of the second or smaller at the first byte in which they differ |
| ScanHeaders.CompareHeadersLaws | internal/iscan/client.go:278-295 | the comparator is a total order as long as at most one header is the score header |
| ScanHeaders.TwoScoresConfuse | internal/iscan/client.go:278-295 | it contradicts itself exactly on two score headers |
| ScanHeaders.SortHeaders | internal/iscan/client.go:278-295 | the result is a permutation; if at most one header is the score header, that is if the comparator is an order on the list, neighbouring names stand in ascending dictionary order, bodies for equal names, with the score header last |
| ScanHeaders.SortedUnique | internal/iscan/client.go:278-295 | two sorted lists with the same headers are equal, so the sorting algorithm does not matter |
| ScanHeaders.ScoreIsLast | internal/iscan/client.go:257-295 | there is exactly one score header and sorting puts it last |
| ScanHeaders.ScanHdrsHold | internal/iscan/client.go:257-276 | the headers of a scan result are exactly X-rspamd-iscan-Score and, for each symbol whose score is not zero, X-rspamd-iscan-Symbol- with its name |
| ScanHeaders.ScanResultSection | internal/iscan/client.go:257-276 | the section is the printed form of exactly these headers in ascending order |
| ScanHeaders.ScanSectionCanonical | internal/iscan/client.go:240-295 | any two iteration orders and sorts give the same bytes or fail alike, the score header last |
| ScanRewrite.MidIs | internal/iscan/client.go:456-469 | the field Subject is replaced exactly if rspamd gave a subject and it is not that of the envelope; otherwise the mail goes on unchanged |
| ScanRewrite.CopyConserves | internal/iscan/client.go:456-477 | the copy without the inserted section is the mail, with its subject replaced exactly under that condition; the section is the scan headers in ascending order, the score last |
| ScanRewrite.CopyEndToEnd | internal/iscan/client.go:456-477 | for a new subject of rspamd without CRLFCRLF, other than that of the envelope, the copy is rewritten header, scan headers, blank line and the body lines |
| Mailboxes.MoveOnePutsItThere | internal/imapclt/client.go:384-401 | a successful move of one mail puts this very mail into the destination and out of the source |
| PipelineInvariant.MoveConserves | internal/imapclt/client.go:384-401 | no move, successful or not, loses or doubles an original |
| PipelineInvariant.StepKeepsInv | internal/iscan/client.go:326-386 | every step of server, other clients and pipeline keeps the originals conserved and the client's picture of the scan box right |
| PipelineSafety.EveryOriginalHasOneHome | internal/iscan/client.go:326-565 | in every run each delivered original is in exactly one slot, in scan box, backup box or, if malformed, inbox |
| PipelineSafety.UploadedAtMostOnce | internal/iscan/client.go:326-386 | in every run at most one upload is attempted for each original |
| PipelineSafety.BackupFirst | internal/iscan/client.go:326-386 | an upload directly follows the successful move of its original to the backup box, where the original still is; it carries the rewrite of that mail and goes to spam exactly if the score reaches the threshold |
| PipelineSafety.NoErrorMeansAllUploaded | internal/iscan/client.go:496-565 | a pass without an error has attempted exactly one upload for each scanned mail |
| PipelineLimits.UploadedAtMostOnceIff | internal/iscan/config.go:62-111 | among the configurations validate accepts, at most one upload holds in all runs exactly if the scan box is neither backup nor spam box |
| PipelineLimits.OriginalsStayIff | internal/iscan/config.go:62-111 | and the originals stay exactly if learning leaves backup box and inbox alone or moves within such boxes |
| PipelineTraces.CleanMailGoesToInbox | internal/iscan/config.go:62-111 | in every configuration validate accepts, the copy of a mail without a positive score goes to the inbox, which is neither the scan box nor the box of its original |
| PipelineScan.ScanPass | internal/iscan/client.go:496-565 | at every stage of a pass the batch is exactly the malformed mails and the well-formed ones fetched so far, in fetch order, but for at most the last one, which is being scanned or failed |
| PipelineScan.MalformedGoToInbox | internal/iscan/client.go:326-561 | every Move of a pass takes one mail to the backup box, but for the last one, which takes all malformed mails to the inbox |
| PipelineScan.FailsExactlyIf | internal/iscan/client.go:326-565 | a pass has failed exactly if a Move or an Upload was refused or a fetched mail was not scanned |
| PipelineScan.BlockedByUnrewritable | internal/iscan/client.go:526-533 | a pass that fetches a mail which cannot be rewritten has exactly the mails fetched before it in its batch, and fetches none behind it |
| PipelineScan.OneByteIsUnrewritable | internal/iscan/client.go:456-477 | a mail whose body is one byte cannot be rewritten for any verdict of rspamd |
| PipelineScan.UnrewritableStays | internal/iscan/client.go:496-565 | a well-formed mail in the scan box that cannot be rewritten is still there after every further run |
| PipelineScan.UploadedPassStays | internal/iscan/client.go:326-386 | if exactly one upload was attempted for each mail fetched in a pass, that stays so whatever the pipeline does later |
| PipelineLearn.LearnPass | internal/iscan/client.go:166-238 | at most one Move, the last command, after the iterator ended, from the selected source, with exactly the learned and malformed UIDs in fetch order, directly preceded by MarkSeen with the same list if wanted |
| PipelineLearn.LearnCommands | internal/iscan/client.go:146-238 | ham goes from the ham box to the inbox and spam from the undetected box to the spam box; MarkSeen is issued exactly for spam that is moved, and only if this is configured |
| PipelineLearn.LearnAllOrNothing | internal/iscan/client.go:166-238 | whatever other clients do: without that Move the mailboxes are what the others alone make of them; with it only processed mails may besides have left their slots, and after its success those still in the source are in the destination; these are all of them if nobody else removes mails from the source |
| ImapSession.Session.Next | internal/imapclt/message.go:33-128 | sorts what the server sends as fetchNext does: a mail is malformed exactly if its envelope or its body section is missing or the body is empty, and is then never yielded as a message; a mailbox that was not selected gives an error; only yielded mails enter the log, each at most once for a FETCH |
| Pipeline.Client.Rewrite | internal/iscan/client.go:456-477 | the rewritten bytes are a rewrite of the mail for the scan result, the subject replaced exactly if there is a new one that is not that of the envelope; there are none only after a file error, if the subject cannot be replaced or a scan header not printed, or if no read holds the end of the header |
| Pipeline.Client.DownloadAndScan | internal/iscan/client.go:388-490 | either one more mail is scanned, which is one more entry of the history, and its file, a new one, holds the rewritten mail; or the history is as before and its file is gone again |
| Pipeline.Client.ReplaceOne | internal/iscan/client.go:329-383 | one mail: move to backup, upload of its file's bytes to the right box only after success, file removed in every case; the history is continued, with no SELECT |
| Pipeline.Client.ReplaceWithModifiedMails | internal/iscan/client.go:326-386 | every mail has its turn unless the context is cancelled; an error is returned exactly if something failed; all files are removed; the history is continued, with no SELECT |
| Pipeline.Client.ScanMessages | internal/iscan/client.go:504-536 | the loop yields scanned and malformed mails as fetched, with one file for each scanned mail, or aborts with no file left; the history is continued, with no SELECT |
| Pipeline.Client.ProcessScanBox | internal/iscan/client.go:496-565 | the history before is kept and one SELECT added; what follows it says that the batch is the fetched mails before the first failing one, where the mails were moved and what failed; unless the context is cancelled or the FETCH fails, every scanned mail has its turn and the malformed ones are moved; no error exactly if all that succeeded, and then, for a scan box that is neither backup nor spam box, exactly one upload was attempted in the whole history for each fetched mail; a pass never ends between a successful move and its upload; no temporary file is left on any path, and none is removed twice |
| Pipeline.Client.ProcessLearnBox | internal/iscan/client.go:146-238 | the result tells how far the pass came (also the silent end after a permanent error); the history before is kept and one SELECT added, and what follows it is all or nothing |
| Pipeline.Client.LearnPhase | internal/iscan/client.go:166-238 | an error of the phase is exactly one of: not begun, late, cancelled, FETCH failed, a retryable learning error, Move failed; a mail that cannot be learned for good ends the pass without one |
| Pipeline.Client.RunOnce | internal/iscan/client.go:837-851 | the phases ham, spam and scan, without the disabled ones, are begun in this order, up to the first error and all without one; then, for a scan box that is neither backup nor spam box, exactly one upload was attempted in the whole history for each mail the scan phase fetched |
| Pipeline.Client.RunPeriodicPass | internal/iscan/client.go:853-863 | the same for scan, ham and spam; the learning phases upload none of these mails again |
| ProtocolSession.SessionDiscipline | internal/iscan/client.go:578-835 | whoever issues IMAP commands is the only goroutine on the session, with no IDLE outstanding; a goroutine outlives Monitor only after the transport close was started |
| ProtocolSession.CallsStartClean | internal/iscan/client.go:578-835 | a phase and startMonitor start with no other goroutine, IDLE or registered channel around; the stop function finds exactly the IDLE it ends |
| ProtocolChannels.ChannelLifeCycle | internal/imapclt/client.go:258-365 | a registered channel is open, nothing is sent on a closed one, each holds at most one event; each is closed at most once, and exactly once when its stop function has finished and whenever no monitor is started, waited on or stopped; the last clause, that the handler never blocks with the mutex, is a fact of the model itself: its send under the mutex has a default branch and so always has a step |
| ProtocolSession.StepKeepsSession | internal/iscan/client.go:578-835 | every step of every goroutine keeps the session invariant |
| ProtocolShutdown.TransportClosedOnce | internal/iscan/client.go:774-795 | Close is called at most once, the done channel closed at most once, and only after the close error was written |
| ProtocolShutdown.NoRunAfterStop | internal/iscan/client.go:872-898 | once Stop has cancelled under runMu no run is added to wgRun, and if Stop returns in time no run is left |
| ProtocolShutdown.EachMonitorStoppedOnce | internal/iscan/client.go:602-685 | each successful startMonitor has its stop function invoked exactly once before the loop goes on or Monitor returns |
| ProtocolLoop.MonitorIsSequential | internal/iscan/client.go:578-707 | whatever the interleaving, the trace of Monitor is one of the sequential program: which phase or wait follows which, for every result and reason, only after success; and it returns an error exactly if the context is not cancelled |
| ProtocolLoop.RoundsAreComplete | internal/iscan/client.go:837-863 | between the begin of the first phase of a round and the next start of a monitor all three phases were begun in order and succeeded, and nothing else happened |
| ProtocolWakeups.NoLostWakeup | internal/imapclt/client.go:258-372 | while the loop waits and the scan box is not empty, an event is buffered, which ends the wait before time passes whatever its count, or an update is undelivered, or the mail came between the SELECT reply and the registration of the channel |
| ProtocolWakeups.WaitsEndForAReason | internal/iscan/client.go:629-694 | a wait ends for a cancellation only when cancelled, for the connection only when it is dead, with an event only the one that was buffered; that the event channel is closed is never the reason |
| ProtocolTiming.CallsAreBounded | internal/iscan/client.go:715-835 | with operation timeout O and shutdown timeout S: closeTransport takes at most S, startMonitor O+S, runIMAPPhase O+2S, stopIDLE 3S |
| ProtocolTiming.WaitsForClose | internal/iscan/client.go:715-835 | while Close has not answered, startMonitor and runIMAPPhase wait for it at least until S after their call |
| ProtocolTiming.StopIsBounded | internal/iscan/client.go:872-898 | Stop takes at most 2S |
| ProtocolTiming.MonitorReturnsAfterCancel | internal/iscan/client.go:578-707 | after a cancellation at any point Monitor returns within 3S, and without an error, even if every IMAP call blocks forever |
| ProtocolStopExact.StopWaitsIff | internal/iscan/client.go:870-898 | in every reachable state in which Stop has just cancelled: some run from it lets Stop return before Monitor if and only if Monitor waits for updates or is about to end such a wait, or waits for a phase, a stop function or the start of a monitor that has no result (the start: can still succeed), and not in a last wait that ends before S is over |
| ProtocolStop.StopWaitsForMonitor | internal/iscan/client.go:870-898 | the same condition also suffices later on, while there is time left: within S of the call, or once Close has answered until the wait for Monitor ends |
| ProtocolStop.StopGivesUpFirst | internal/iscan/client.go:743-795 | from every state in which Stop has just cancelled a Monitor that waits for updates with IDLE running, Close not having been called, there is a run without answers in which Stop returns 2S after its call with Monitor running, and Monitor returns 3S after the cancellation, through the three waits of stopIDLE |
| ProtocolStop.StopGivesUpOnPhase | internal/iscan/client.go:799-835 | from every state in which Stop has just cancelled a Monitor that is in the first wait of runIMAPPhase without a result, Close not having been called, there is a run in which Stop returns 2S after its call with Monitor still in runIMAPPhase |
| ProtocolStop.StopMayReturnFirst | internal/iscan/client.go:870-898 | both kinds of state are reached for every configuration with a shutdown timeout, so Stop can return before Monitor and Monitor can need 3S |
| ProtocolTiming.LooksAgainInTime | internal/iscan/client.go:597-706 | a running Monitor has asked for a SELECT of the scan box, or was called, at most 4O+5S plus the idle timeout ago |
| ProtocolLearning.LearnsInTime | internal/iscan/client.go:597-664 | a running Monitor came to the last phase of a learning round, or was called, at most the learn interval, 6O + 8S, and 2O + 3S for each wait since then that ended otherwise with the learn timer run out |
| ProtocolLearning.PassesAreSpaced | internal/iscan/client.go:610-664 | a periodic pass begins no earlier than the learn interval after the last phase of the round before; an idle lease lasts exactly the idle timeout |
| ProtocolPutOff.LearningCanBePutOff | internal/iscan/client.go:629-694 | for every configuration with an operation timeout and every n there is a run in which Monitor has not learned n after the interval, its timer passed over n times by mails that keep coming |
| ProtocolResponse.MailsAreServed | internal/iscan/client.go:597-706 | if the scan box stays non-empty while Monitor runs, then within 5O+8S plus the idle timeout a scan phase starts or Monitor returns, as after a failed SELECT |
| ProtocolTiming.NoTimelock | internal/iscan/client.go:578-898 | in every reachable state time can pass or Monitor or Stop can take a step, so no bound holds because the clock is stuck |
| ProtocolTiming.CancelledRunWindsDown | internal/iscan/client.go:578-707 | once cancelled, every step of the Monitor goroutine brings it nearer to its return |
| Retry.SuffixRunIsLongest | internal/retry/retry.go:47-53 | the count is the length of the longest suffix of equal keys |
| Retry.Runner.CountFailure | internal/retry/retry.go:47-53 | after each failure the two fields are that function of the whole history, over several calls of Run |
| Retry.Runner.Run | internal/retry/retry.go:24-98 | outcome, calls, history and pauses are the declarative run over its rounds, which the rows below describe |
| Retry.RunRecords | internal/retry/retry.go:24-57 | the history grows by exactly the keys of the retryable failures of this run, in order |
| Retry.RunEnds | internal/retry/retry.go:24-77 | how each outcome comes about: which result or cancellation of which round ended the run |
| Retry.RunGivesUpAtLimit | internal/retry/retry.go:55-57 | Run gives up exactly when the count first reaches MaxRetriesSameError |
| Retry.RunPauses | internal/retry/retry.go:59-98 | the pause after n equal failures in a row is the n-th interval, or the last one if there are fewer |
| Retry.FreshRunBounds | internal/retry/retry.go:24-77 | from a fresh runner with limit Max at least 1, Fn is called at most (Max-1) times the number of blocks of equal keys, plus 1 |

## Left out

- TCP, TLS, STARTTLS, login and reconnecting: network and library calls; the transport is open, being closed or closed.
- The internals of go-imap, bufio and os: contracts only. A read returns any chunk, the scanner drops LF and one preceding CR and refuses raw lines of 16384 bytes and more, a rename is atomic, and the go-imap fallback for servers without MOVE is not modelled.
- Mailboxes.LegalMove: assumes that a MOVE moves each mail as a whole or not at all, as RFC 6851 section 3.3 recommends, so COPY and EXPUNGE cut in between are not covered.
- Mailboxes.LegalOthers: assumes that no other client takes mails from the scan box or touches an original in another box, and that UIDs are not reused while a mail is there.
- PipelineLimits.UploadedAtMostOnceIff: assumes that the threshold itself prints as a header body; so does PipelineLimits.OriginalsStayIff.
- Pipeline.Client.DownloadAndScan: the error of a failing os.Remove is not modelled, nor are the temporary files that AddHeaders and ReplaceHeader create and rename inside; reading and seeking errors are one nondeterministic failure.
- ScanHeaders.SortHeaders: models slices.SortFunc by its contract, as an insertion sort; SortedUnique shows that any correct sort gives the same list. With two score headers, which the program never makes, the comparator is no order and only a permutation is promised.
- ProtocolStop.StopWaitsForMonitor: for states later than the cancellation only this direction is stated; the ties in which an answer arrives exactly when the time is over are left open there, while ProtocolStopExact.StopWaitsIff includes them.
- HeaderReplacement.Matches: upper-casing is modelled for ASCII only, not for the other letters bytes.ToUpper knows.
- HeaderInsertion.AddHeaders: errors of the writer are not modelled; the result of a failed call is discarded by the caller in any case.
- Retry.Runner.Run: takes the decisions of the environment as a finite list of rounds, so an endless run is covered by all its finite parts; error keys and retryability (internal/neterr) are given, and the wait itself is instantaneous.
- ProtocolTiming.MonitorReturnsAfterCancel: counts only waits; local steps take no time, and a Monitor called after the cancellation is counted from its own call.
- Protocol: one call of Monitor and the first call of Stop; the other callers of runIMAPPhase (RunOnce, ProcessHam, ProcessSpam, ProcessScanBox) are not interleaved with them. Phases appear there as goroutines that may select, move mails away, succeed, fail or hang; what they do in detail is the pipeline model.
- Goroutines of abandoned phases: assumed to have every further command fail once the transport close has started, and a MOVE they still had outstanding to take effect, if at all, before the next SELECT.
- Pipeline.Client.RunOnce: runs the phases one after the other to their end; that a phase hangs and is abandoned is in the traces, which may be cut off anywhere, and in the Protocol modules. So does Pipeline.Client.RunPeriodicPass.
- rspamd's HTTP client: its answers are nondeterministic; a score is a real number, NaN and the formatting of floats are left to a parameter.
- The internal date given to APPEND, cntProcessedMails, logging, configuration files and the dry-run client: easy members that no property here depends on.
