# Verified model of Surface

Surface scans one host from outside: DNS, ports, services, SSH, HTTP and TLS, passive intelligence,
then findings, a score, storage and comparison of reports. This project models the deterministic
part of it in Dafny and proves what that part promises. Sockets, resolvers, clocks and cancellation
are inputs: an arbitrary trace of events, an arbitrary answer of the network, and two instants on a
clock that the code can only look at.

| file | what it models |
|---|---|
| `Axfr.dfy` | the zone transfer check as a loop over an event trace |
| `SshIdentification.dfy`, `SshKexinit.dfy`, `SshClient.dfy`, `SshNegotiation.dfy` | the SSH line reader, the KEXINIT printer and parser, the client's packet, negotiation and the legacy finding |
| `JsonDepth.dfy`, `Prefix.dfy` | the nesting limit on JSON texts, CIDR arithmetic and longest match |
| `Cname.dfy`, `Dnssec.dfy` | the CNAME chain, the memoised destination check, the DNSSEC status |
| `PortScan.dfy`, `Certificates.dfy`, `RsaModulus.dfy` | concurrent probes in any completion order, bounded certificate chains, exact key lengths |
| `Findings.dfy`, `Exposure.dfy` | the rules, the generated list, the score |
| `Lifecycle.dfy`, `Engine.dfy`, `ScanRuns.dfy` | the report, the stages of a scan, what holds of every core run |
| `ScanCommand.dfy`, `SourceRecords.dfy`, `CommandRuns.dfy` | the steps of the scan command on the report, what its sources leave there, what holds of every run of it |
| `Diff.dfy`, `Retention.dfy`, `Restore.dfy` | report comparison, retention, backup and restore as file steps, queries included, that may fail |
| `Bytes.dfy`, `Ordering.dfy`, `Powers.dfy`, `Wrappers.dfy` | bytes, orders and sorting, powers of two, `Option` and `Result` |

`dafny verify dfyconfig.toml` checks everything.

## How to read the run theorems

A core run is described by three things: a `World` (what the network would answer and how each wait
ends), a `Selection`, and a `Cut` (where the run was stopped, if it was). `Engine.RunStages` shows
that every execution of the stages is `Outcome` of those three and that the cut has really happened;
the lemmas of `ScanRuns` then speak about `Outcome`. `Sound` is the invariant that is never lost
again: distinct skipped checks, at most one Cancelled error and then the status Interrupted,
Interrupted only after a cancellation, Completed only without errors and indeterminate checks,
Failed only with a preflight conflict or without observations.

The steps of `Restore` exist twice: as methods on a file system object, in the order of the original,
and as functions on a disk value (`RestoreOf` and its parts) that the methods are proved to compute;
what a restore keeps is proved of the functions.

## What the proofs say about the code

* In the transfer check the closing-SOA flag is never set at the loop head, so both tests of it
  there are dead (`Axfr.ReadTransfer`).
* In the SSH line reader the full-buffer guard and the second test of the informational byte limit
  are never reached (`SshIdentification.ReadLines`), and the fallback reason of the negotiation is
  unreachable (`SshNegotiation.CompleteExactly`).
* The score says whether the scan was incomplete before the last look at the clock, so a report that
  this last look stops can carry a score that calls itself complete (`Lifecycle.ScoreBeforeLastStop`
  says exactly when, `ScanRuns.CompleteScoreOfStoppedRun` gives a run).
* Without addresses, and without a cancellation, the selected later stages leave neither an
  observation nor a skipped check (`ScanRuns.LaterStagesWithoutStop`).
* An interrupted report stays interrupted only because cancellation is never withdrawn: a timeout
  would change its status (`Lifecycle.OnlyCancellationKeepsInterruption`).
* A cancellation that the scan command notices only after the sources interrupts the report without
  an error of its own (`CommandRuns.CourseKeeps` says exactly when, `CommandRuns.InterruptedWithoutError`
  gives a run).
* The restore asks `Path::exists` whether there is a database to preserve, and a query that fails
  answers no. Then the install overwrites the original, and a later failing verification leaves it at
  neither path (`Restore.KeptExactly` says exactly when, `Restore.OverlookedOriginalIsLost` gives a
  run); the documentation of the function promises otherwise. In the same way a backup can overwrite
  an existing destination (`Restore.DestinationKeptExactly`).
* A port list that repeats a port makes the completion order visible
  (`PortScan.OrderIsIrrelevantExactly`).
* The order of findings matters to the score: on a list that is not in severity order it can charge
  less than the worst of a pair (`Exposure.ChargedExactly` says exactly when it does not).
* The second truncation test on certificates is dead on a recorded chain
  (`Certificates.RecordedIsInspected`).

## Model

| member | source | states |
|---|---|---|
| Axfr.ReadAnswers | crates/surface-core/src/dns.rs:1078-1098 | The inner record loop: it sees a closing record exactly when some later record repeats the opening SOA, trailing records exactly when that is not the last one, and otherwise leaves the latches describing all records so far |
| Axfr.Accept | crates/surface-core/src/dns.rs:1005-1075 | One decoded message: stops with the verdict the message calls for, or goes on with counters that are the true totals within all three limits |
| Axfr.Finish | crates/surface-core/src/dns.rs:1099-1134 | After the closing SOA: trailing records, then authority and truncation of the whole transfer, then the drain wait decide the verdict |
| Axfr.TakeFrame | crates/surface-core/src/dns.rs:999-1134 | One turn of the loop keeps the latches equal to what the messages taken so far say, or ends the attempt as the trace calls for |
| Axfr.ReadTransfer | crates/surface-core/src/dns.rs:946-1136 | For every event trace the loop ends at the first message that ends it; the two branches that test a closing SOA at the loop head are never taken |
| Axfr.CheckEndpoint | crates/surface-core/src/dns.rs:887-1137 | For every connection outcome and trace, without naming the loop: Allowed exactly when the trace holds a complete transfer (section 2.2 of RFC 5936); Unreachable exactly when connecting or sending failed; Refused and NotAuthoritative exactly when the first message answers the question with that code; Timeout exactly when connecting or a message that is awaited meets the deadline; LimitExceeded exactly when a message that is read is one too many, too large or too long; cancelled exactly while connecting, awaiting a message, or in the wait after a whole zone; otherwise Incomplete. Counters are true totals and stay within 64 messages, 2 MiB and 4096 records on every outcome |
| Axfr.SetupShows | crates/surface-core/src/dns.rs:887-943 | What an attempt reports tells how the connection phase went: different failures report differently, and no end of the read loop looks like one of them, except a cancellation before the first message |
| Axfr.EndTotals | crates/surface-core/src/dns.rs:953-1136 | However the loop ends, the counters are the totals of the messages taken and within the limits |
| Axfr.AllowedIffComplete | crates/surface-core/src/dns.rs:953-1136 | The verdict of the loop is Allowed if and only if some number of messages is a complete SOA-delimited transfer followed by a silent drain wait |
| Axfr.AllowedIsComplete | crates/surface-core/src/dns.rs:999-1134 | An Allowed verdict means that the messages up to there are a complete transfer |
| Axfr.CompleteIsAllowed | crates/surface-core/src/dns.rs:953-1136 | A trace that holds a complete transfer is never refused, whatever the message it is split into |
| Axfr.FirstExactly | crates/surface-core/src/dns.rs:1047-1075 | The two refusals are said of the first message alone |
| Axfr.TimeoutExactly | crates/surface-core/src/dns.rs:960-985 | The deadline outcome is said of the trace: a message is still awaited when it passes |
| Axfr.LimitExactly | crates/surface-core/src/dns.rs:1028-1046 | The limit outcome is said of the trace: the message that breaks a limit is the one the loop ends with |
| Axfr.CancelledExactly | crates/surface-core/src/dns.rs:953-1134 | The cancelled outcome is said of the trace: cancelled while a message is awaited, or in the wait after a whole zone |
| Axfr.EndsOnce | crates/surface-core/src/dns.rs:953-1136 | No reading goes on past the message that ends the loop |
| Axfr.OpenBeforeLast | crates/surface-core/src/dns.rs:1078-1098 | No proper part of a complete transfer already looks closed |
| Axfr.CompleteCloses | crates/surface-core/src/dns.rs:1078-1098 | Past a complete transfer the answers do hold its closing record |
| Axfr.Extend | crates/surface-core/src/dns.rs:1084-1097 | What one more record does to opening serial, SOA count and closing test |
| Axfr.SplitKeepsAnswers | crates/surface-core/src/dns.rs:1078-1098 | Splitting a message anywhere keeps the answer stream |
| Axfr.BoundariesDoNotMatter | crates/surface-core/src/dns.rs:953-1136 | Moving part of one message into a follow-up message keeps the trace a complete transfer or not, within the limits and with the closing SOA in the last message |
| Axfr.VerdictOfGoodMessages | crates/surface-core/src/dns.rs:953-1136 | On any trace of good messages within the limits the verdict is Allowed if and only if the answers are SOA-delimited, the last message has one, and the stream closes or goes quiet |
| Axfr.MessagesDoNotMatter | crates/surface-core/src/dns.rs:953-1136 | Any two cuttings of the same answers into good messages, within the limits and without an empty last message, get the same verdict |
| SshIdentification.SplitOnce | crates/surface-core/src/ssh.rs:350-362 | The first separator splits the text, and there is none exactly when it does not occur |
| SshIdentification.ParsesExactly | crates/surface-core/src/ssh.rs:331-375 | The parser accepts exactly the lines of the identification grammar and reports version and software with a non-empty comment |
| SshIdentification.ParsedParts | crates/surface-core/src/ssh.rs:331-375 | An accepted line has the parts of the grammar |
| SshIdentification.GrammarParses | crates/surface-core/src/ssh.rs:331-375 | A line of the grammar is accepted with the version and software it names |
| SshIdentification.SanitizeKeeps | crates/surface-core/src/ssh.rs:377-383 | Sanitizing never changes a line that passed the earlier checks |
| Bytes.Utf8Exactly | crates/surface-core/src/ssh.rs:341-342 | The bytes that pass as UTF-8 are exactly the encodings of sequences of Unicode scalar values (section 3 of RFC 3629) |
| SshIdentification.CheckByte | crates/surface-core/src/ssh.rs:285-310 | The checks on one byte against the line buffer, in the order of the source; an accepted byte joins the buffer |
| SshIdentification.TakeByte | crates/surface-core/src/ssh.rs:282-310 | One byte stops the reader for a reason that explains the stream, or leaves an unbroken line within the limits |
| SshIdentification.FaultExplained | crates/surface-core/src/ssh.rs:285-310 | Every fault of a byte is a reason that rules the stream out; without a fault a line is unbroken, and complete at its line feed |
| SshIdentification.LineTaken | crates/surface-core/src/ssh.rs:317-327 | An informational line always fits the byte limit (so the second check of it is dead) and is refused exactly as the fifty-first |
| SshIdentification.NextLine | crates/surface-core/src/ssh.rs:268-329 | The line under way is the beginning of the next line of any acceptable reading of the stream |
| SshIdentification.LinesAgree | crates/surface-core/src/ssh.rs:268-329 | Two readings of one stream agree line by line |
| SshIdentification.ExplainedIsRefused | crates/surface-core/src/ssh.rs:268-329 | Every reason the reader gives rules out every acceptable conversation |
| SshIdentification.ReadLines | crates/surface-core/src/ssh.rs:268-329 | The byte loop ends with a transcript or with a reason; at most 4352 bytes are consumed, and the full-buffer guard is never reached |
| SshIdentification.ReadIdentification | crates/surface-core/src/ssh.rs:268-329 | Accepts exactly the streams of at most 50 CRLF lines and 4096 bytes without control bytes or SSH- prefix, followed by a parseable SSH- line of at most 255 bytes (section 4.2 of RFC 4253); consumes at most 4352 bytes |
| SshKexinit.Split | crates/surface-core/src/ssh.rs:524-545 | Splitting gives at least one part, and no part holds the separator |
| SshKexinit.SplitCounts | crates/surface-core/src/ssh.rs:524-545 | A text with n separators has n + 1 parts |
| SshKexinit.AlgorithmNameExactly | crates/surface-core/src/ssh.rs:547-585 | The checks of the parser accept exactly the names of section 6 of RFC 4251: a plain name, or a plain name at a domain whose labels are letters, digits and inner hyphens |
| SshKexinit.NameAtDomain | crates/surface-core/src/ssh.rs:547-585 | Every plain name at every domain is accepted, up to 64 characters together |
| SshKexinit.SplitJoin | crates/surface-core/src/ssh.rs:424-432 | Joining and splitting again gives the same names, for names without separator |
| SshKexinit.JoinSplit | crates/surface-core/src/ssh.rs:524-545 | Splitting and joining again gives the same text |
| SshKexinit.DecodeEncodedList | crates/surface-core/src/ssh.rs:424-432 | Reading a printed name-list gives its names and leaves what follows |
| SshKexinit.DecodeEncodedLists | crates/surface-core/src/ssh.rs:385-432 | Reading printed name-lists gives all of them |
| SshKexinit.DecodeEncodedPayload | crates/surface-core/src/ssh.rs:385-432 | Reading a printed payload gives its ten lists |
| SshKexinit.EncodeDecodedList | crates/surface-core/src/ssh.rs:524-545 | An accepted name-list is byte for byte what printing its names gives |
| SshKexinit.EncodeDecodedLists | crates/surface-core/src/ssh.rs:470-473 | Accepted name-lists are byte for byte what printing them gives |
| SshKexinit.EncodeDecodedPayload | crates/surface-core/src/ssh.rs:464-484 | Every accepted payload re-encodes byte for byte from its cookie, lists and flag |
| SshKexinit.PaddingFills | crates/surface-core/src/ssh.rs:406-409 | Padding is 4 to 11 bytes and fills the packet to a multiple of 8 (section 6 of RFC 4253) |
| SshKexinit.UnframeFrame | crates/surface-core/src/ssh.rs:434-462 | The packet reader takes the payload out of any frame, whatever follows |
| SshKexinit.FrameUnframed | crates/surface-core/src/ssh.rs:434-462 | An accepted stream begins with a frame around the accepted payload |
| SshKexinit.AcceptsExactly | crates/surface-core/src/ssh.rs:434-484 | The reader accepts exactly the frames around a cookie, ten valid name-lists and a flag, and returns those lists |
| SshKexinit.PacketRoundTrip | crates/surface-core/src/ssh.rs:385-484 | Building then reading a packet returns the same ten name-lists for all valid in-bound lists |
| SshKexinit.AppendNameList | crates/surface-core/src/ssh.rs:424-432 | Appends length and joined names to the payload |
| SshKexinit.KexinitPacket | crates/surface-core/src/ssh.rs:385-422 | Builds the frame of the printed lists, a multiple of 8 bytes long, with every slice in its buffer |
| SshKexinit.Cursor.Take | crates/surface-core/src/ssh.rs:501-512 | Yields the next bytes and advances, or fails and stays within the buffer |
| SshKexinit.Cursor.Byte | crates/surface-core/src/ssh.rs:514-516 | Reads one byte of what is left |
| SshKexinit.Cursor.U32 | crates/surface-core/src/ssh.rs:518-522 | Reads four bytes of what is left, big endian |
| SshKexinit.Cursor.ReadNameList | crates/surface-core/src/ssh.rs:524-545 | Reads the name-list at the cursor exactly as the grammar decodes it, with the same error |
| SshKexinit.ReadLists | crates/surface-core/src/ssh.rs:470-473 | The loop over the ten lists decodes the rest of the payload list by list |
| SshKexinit.ReadTrailer | crates/surface-core/src/ssh.rs:474-482 | Flag, reserved field and end of payload are checked in that order |
| SshKexinit.ParseKexinit | crates/surface-core/src/ssh.rs:464-484 | The cursor-based parser computes the payload grammar |
| SshKexinit.ReadServerKexinit | crates/surface-core/src/ssh.rs:434-462 | The packet reader computes the frame grammar, error for error |
| SshClient.ClientPayloadFits | crates/surface-core/src/ssh.rs:385-422 | The client lists are ten, valid and within the packet limit |
| SshClient.ClientKexinitPacket | crates/surface-core/src/ssh.rs:385-422 | The packet that is sent can be read back as exactly the client lists; no conversion in it fails |
| SshNegotiation.SelectAlgorithm | crates/surface-core/src/ssh.rs:668-673 | The first client name that the server offers, none exactly when the lists are disjoint (section 7.1 of RFC 4253) |
| SshNegotiation.ServerOrderIsIrrelevant | crates/surface-core/src/ssh.rs:668-673 | The choice depends on the server list only as a set |
| SshNegotiation.InferredPosture | crates/surface-core/src/ssh.rs:587-666 | Walks all eight required lists in order, records the selection of each and blames the first without a common name |
| SshNegotiation.StrongFirst | crates/surface-core/src/ssh.rs:42-73 | Every client list is its non-legacy names first, then exactly the names the rule calls legacy |
| SshNegotiation.MatchesExactly | crates/surface-core/src/findings.rs:455-487 | A category is reported exactly when its selection is one of its legacy names, once and with that name |
| SshNegotiation.LegacyFindingShows | crates/surface-core/src/findings.rs:400-487 | The finding lists, category by category, the selections of a complete negotiation that are legacy, and does not appear when there is none |
| SshNegotiation.LegacyFindingExactly | crates/surface-core/src/findings.rs:400-487 | The finding appears exactly when the posture is complete and some category offers none of the non-legacy client names |
| JsonDepth.ValidateJsonDepth | crates/surface-core/src/intelligence.rs:1388-1416 | The scanner loop accepts exactly the texts that its state machine survives |
| JsonDepth.JsonRuns | crates/surface-core/src/intelligence.rs:1388-1416 | Scanning a printed tree at any depth returns to that depth, or rejects when the tree nests too deep |
| JsonDepth.AcceptedIffShallow | crates/surface-core/src/intelligence.rs:1388-1416 | For every JSON tree printed with legal escapes: accepted if and only if it nests at most 32 deep, whatever its strings hold |
| Prefix.MaskValue | crates/surface-core/src/intelligence.rs:2125-2145 | The mask is all ones above the host bits |
| Prefix.AndClears | crates/surface-core/src/intelligence.rs:2125-2145 | And-ing with the mask clears the host bits and nothing else |
| Prefix.MaskedIsBlockStart | crates/surface-core/src/intelligence.rs:2125-2145 | The masked address is the first address of its block |
| Prefix.ContainsIsInterval | crates/surface-core/src/intelligence.rs:2125-2145 | Containment is lying between the masked network and the last address of the block, for 32 and 128 bits |
| Prefix.CanonicalKeepsAddresses | crates/surface-core/src/intelligence.rs:2147-2174 | The canonical prefix has the same addresses, is idempotent and has no host bits |
| Prefix.SharedAddressNests | crates/surface-core/src/intelligence.rs:2125-2145 | Of two prefixes that share an address the longer lies inside the shorter |
| Prefix.LongestMatch | crates/surface-core/src/intelligence.rs:2054-2079 | Picks a matching entry of greatest length, the last of several; none exactly when nothing matches |
| Prefix.LongestBootstrapEndpoint | crates/surface-core/src/intelligence.rs:1279-1288 | The endpoint of the longest match only; if that has none, no shorter match is tried |
| Prefix.LongestIsInnermost | crates/surface-core/src/intelligence.rs:1279-1288 | Every address of the chosen prefix lies in every other matching prefix |
| Prefix.ParsePrefix | crates/surface-core/src/intelligence.rs:2176-2193 | Accepts exactly the lengths up to the width of the address, and what it accepts is a valid prefix |
| RsaModulus.BitsAreExact | crates/surface-core/src/tls.rs:590-604 | The reported length b satisfies 2^(b-1) <= modulus < 2^b |
| RsaModulus.AcceptsExactly | crates/surface-core/src/tls.rs:590-604 | Rejected are exactly the empty, non-minimal, zero and negative encodings |
| RsaModulus.WeakExactly | crates/surface-core/src/findings.rs:656-677 | For an rsaEncryption key with an accepted modulus the finding is raised exactly when the modulus is below 2^2047 |
| Certificates.RecordCertificates | crates/surface-core/src/tls.rs:69-102 | Keeps the longest prefix of the chain within 16 certificates and 1 MiB; truncated exactly when the size cut it |
| Certificates.CountInspected | crates/surface-core/src/tls.rs:470-488 | The second pass takes the longest prefix under the same limits |
| Certificates.RecordedIsInspected | crates/surface-core/src/tls.rs:69-102 | What was recorded is inspected whole: the truncation branch of the second pass is dead on a recorded chain |
| Restore.SiblingsDiffer | crates/surface-storage/src/backup.rs:105-111 | The temporary and the preserved name differ from the database and from each other |
| Restore.RestoreKeeps | crates/surface-storage/src/backup.rs:68-103 | Whichever steps fail: the original bytes are at the database path or the preserved sibling at every state before the last step of a success, and on every error, unless the disk at the start loses them (KeptExactly); no error before the install touches the database; an error after one failing step other than that of the final clean-up leaves the original in place; success installs content that passed verification; only unsound content or a failing step prevents it |
| Restore.KeptExactly | crates/surface-storage/src/backup.rs:68-103 | Decided by the disk before the call: the original is lost if and only if it exists, input and copy are sound, the seven steps before its existence query succeed, that query fails, the install rename succeeds, and the copy has other bytes (or the same ones, which a failing final verification and a successful removal then remove); in every other case it is kept at all states that count |
| Restore.PrepareExactly | crates/surface-storage/src/backup.rs:69-80 | Verification, clearing and copying succeed if and only if their seven steps do, the input is sound and not a temporary name, and the copy is sound |
| Restore.LostExactly | crates/surface-storage/src/backup.rs:68-103 | A run has overlooked the original and installed the copy if and only if the disk before the call says so |
| Restore.OverlookedOriginalIsLost | crates/surface-storage/src/backup.rs:81-99 | A run in which only that query and the final verification fail: it returns an error with the original at neither path |
| Restore.OverlookedOriginalIsReplaced | crates/surface-storage/src/backup.rs:81-102 | A run in which only that query fails: it succeeds, and the original was at neither path before its last step |
| Restore.RestoreDatabase | crates/surface-storage/src/backup.rs:68-103 | With failures at every file step, the existence queries included: the run is the value-level restore and keeps its promise (RestoreKeeps) |
| Restore.PrepareKeeps | crates/surface-storage/src/backup.rs:69-80 | Verification and copying write nothing but the temporary names, at no recorded state, and fail only on unsound content or a failing step |
| Restore.ClearKeeps | crates/surface-storage/src/backup.rs:69-73 | Both names are cleared, or only they were written; nothing unsound passes |
| Restore.CopyKeeps | crates/surface-storage/src/backup.rs:74-80 | The copy is complete and verified, or nothing but its name was written |
| Restore.PreserveKeeps | crates/surface-storage/src/backup.rs:81-84 | The database is moved aside with its bytes, unless there is none or the query overlooks it; the original bytes are somewhere at every state |
| Restore.ExchangeKeeps | crates/surface-storage/src/backup.rs:81-93 | The two renames lose the original only when the query overlooks it and the install succeeds; a failed install leaves it preserved or in place |
| Restore.ConfirmKeeps | crates/surface-storage/src/backup.rs:94-102 | Lets go of a preserved original only when the installed file passed its verification, at the last step of a success |
| Restore.RollBackKeeps | crates/surface-storage/src/backup.rs:94-98 | Whatever fails, a preserved original is still preserved or back in place, and in place when nothing failed |
| Restore.BackupDatabase | crates/surface-storage/src/backup.rs:13-34 | With failures at every file step, the existence query included: the run is the value-level backup and keeps its promise (BackupKeeps) |
| Restore.BackupKeeps | crates/surface-storage/src/backup.rs:13-34 | Whichever steps fail: the destination is as it was until the last step of a success, which publishes the verified copy; an existing destination is refused unless its query failed, and changed only as DestinationKeptExactly says; with a readable database and a sound copy only a failing step prevents it |
| Restore.DestinationKeptExactly | crates/surface-storage/src/backup.rs:14-32 | Decided by the disk before the call: an existing destination is changed if and only if its query fails, the six steps after it succeed, the database is readable and not the temporary name, the copy is sound and has other bytes |
| Restore.BackupSucceedsExactly | crates/surface-storage/src/backup.rs:14-32 | Over an existing destination the backup succeeds under exactly that condition on steps and contents |
| Restore.OverlookedDestinationIsOverwritten | crates/surface-storage/src/backup.rs:14-32 | A run in which only that query fails: it succeeds and overwrites the destination |
| Retention.Storage.DeleteScan | crates/surface-storage/src/lib.rs:308-326 | Deletes the scan with its findings, nothing else, and adds one audit record; an error means a failed statement, and then nothing changes |
| Retention.Storage.Prune | crates/surface-storage/src/lib.rs:333-402 | Returns exactly the scans that the policy does not spare (old enough, not among the newest of their target, without a severe finding, as far as each is set), oldest first; a dry run changes nothing, a run leaves exactly the other scans with their findings and one audit record per deletion; an error leaves everything, and means exactly a missing criterion or a duration out of range, or a failed statement |
| Retention.SelectedExactly | crates/surface-storage/src/lib.rs:333-368 | The query selects exactly the scans that the policy does not spare, in the order they started |
| Retention.DeletedExactly | crates/surface-storage/src/lib.rs:384-397 | The deletions together leave exactly the other scans and findings, and one record per scan in order |
| Retention.Storage.DeleteAll | crates/surface-storage/src/lib.rs:384-397 | The transaction deletes every row with its record, or nothing |
| Retention.OneDeletion | crates/surface-storage/src/lib.rs:422-441 | Every deletion adds one audit record after its row is gone |
| Retention.CandidatesExactly | crates/surface-storage/src/lib.rs:347-362 | Selected are exactly the scans that meet every condition that is set, oldest first |
| Retention.PrunedRows | crates/surface-storage/src/lib.rs:333-402 | After a pruning the scans that fail some condition remain, and no others |
| Retention.RanksFall | crates/surface-storage/src/lib.rs:350-362 | Deleting scans can only lower the rank of those that remain |
| Retention.RankIsPlace | crates/surface-storage/src/lib.rs:350-357 | The rank is the place among the scans of the target, newest first |
| Retention.KeepsTheNewest | crates/surface-storage/src/lib.rs:333-402 | The newest keep-last scans of every target survive |
| Retention.PruneIsIdempotent | crates/surface-storage/src/lib.rs:333-402 | Pruning again with the same cutoff selects nothing |
| Cname.OrderedCnameChain | crates/surface-core/src/dns.rs:2189-2206 | The chain is a linked path of at most 16 distinct edges from the hostname that stops only at the bound, a revisited name or a missing edge |
| Cname.Extend | crates/surface-core/src/dns.rs:2189-2206 | One more edge keeps the path linked and its edges distinct |
| Cname.Query | crates/surface-core/src/dns.rs:1843-1928 | Asks for every address type in turn, noting evidence and errors in order, at most eight different messages of each, and stops exactly at the first stop |
| Cname.AnalyzeDanglingCnames | crates/surface-core/src/dns.rs:1768-1841 | Each case-folded destination is looked up once; every destination that was asked is Resolved exactly when some lookup found an address, NxDomain exactly when all said it does not exist, NoAddress exactly when all said it has none, otherwise indeterminate; status, evidence and errors are shared by all hops that lead there; a check is stopped exactly by a stopped lookup of the next destination, keeps what had been noted for it by then, and leaves the later hops untouched |
| Cname.NewVerdict | crates/surface-core/src/dns.rs:1768-1841 | A new destination gets status, evidence and errors of its own lookups and is memoised |
| Cname.Interrupted | crates/surface-core/src/dns.rs:1813-1832 | A stop keeps the evidence noted so far for the destination under way and every verdict before it |
| Cname.Shared | crates/surface-core/src/dns.rs:1768-1841 | A known destination gets a copy of its verdict |
| Cname.DanglingCnameFindings | crates/surface-core/src/findings.rs:258-290 | Exactly one finding per distinct destination that was observed not to exist |
| Cname.FindingsExactly | crates/surface-core/src/findings.rs:258-290 | After a completed check every hop has the status its lookups call for, and the rule holds of it if and only if every lookup of its destination said that it does not exist |
| Cname.ReportedExactly | crates/surface-core/src/findings.rs:258-290 | A destination is reported if and only if every lookup of it said that it does not exist |
| Cname.DanglingHopsExactly | crates/surface-core/src/findings.rs:258-290 | Reported are exactly the observed hops that are the first to lead to their destination |
| Cname.ClassifiesExactly | crates/surface-core/src/dns.rs:1956-1974 | The classification of a run of lookups, said of what each of them answered |
| Cname.FoldExactly | crates/surface-core/src/dns.rs:2189-2206 | Two names fold to the same text exactly when they agree letter by letter but for ASCII case |
| Dnssec.AggregateStatus | crates/surface-core/src/dns.rs:2025-2045 | Bogus before indeterminate before insecure before secure, nothing conclusive is indeterminate; order and repetition do not matter |
| PortScan.GroupByHost | crates/surface-core/src/scanner.rs:125-137 | One host per address in their order, also for addresses without observations, with exactly the observations of that address |
| PortScan.ScanHolds | crates/surface-core/src/scanner.rs:84-137 | The host entry of an address holds exactly the probes of that address, as often as they completed |
| PortScan.CompletionOrderIsIrrelevant | crates/surface-core/src/scanner.rs:84-123 | Every completion order of the same results gives the same scan, as long as no socket has two different results |
| PortScan.OrderIsIrrelevantExactly | crates/surface-core/src/scanner.rs:84-123 | The completion order is irrelevant if and only if no socket has two different results |
| PortScan.SwappedResultsDiffer | crates/surface-core/src/scanner.rs:84-123 | Two different results of one socket that complete in either order give different scans |
| PortScan.ScheduledProbes | crates/surface-core/src/scanner.rs:84-110 | When every attempt on addresses × ports completes once and the port list has no repetition, no socket is probed twice |
| PortScan.ScheduleIsIrrelevant | crates/surface-core/src/scanner.rs:84-123 | For a port list without repetitions every completion order gives the same scan |
| PortScan.MergeHosts | crates/surface-core/src/engine.rs:792-804 | Merges the UDP hosts into the TCP hosts without losing or doubling a port, hosts in address order |
| PortScan.MergeOne | crates/surface-core/src/engine.rs:793-800 | One UDP host is merged into the host of its address or appended |
| PortScan.SortedMerges | crates/surface-core/src/engine.rs:801-802 | The final sort keeps what the hosts record |
| PortScan.MergedExactly | crates/surface-core/src/engine.rs:792-804 | One host per address; its ports ascending by number and transport and exactly the TCP and UDP observations of that address, as often as they completed; strictly ascending if and only if no socket was probed twice |
| PortScan.ScheduledMerge | crates/surface-core/src/engine.rs:792-804 | From port lists without repetitions the merged ports ascend strictly |
| Diff.KeysInOrder | crates/surface-report/src/diff.rs:614-636 | Keys are visited once each in ascending order |
| Diff.ChangesExactly | crates/surface-report/src/diff.rs:614-636 | A change is reported for a key exactly when the two sides differ there, with both values |
| Diff.MapsPatch | crates/surface-report/src/diff.rs:614-636 | Applying the changes to the old map yields the new map |
| Diff.SetsPatch | crates/surface-report/src/diff.rs:638-666 | Applying the changes to the old set yields the new set |
| Diff.MapsMirror | crates/surface-report/src/diff.rs:614-636 | Swapping the sides mirrors every change in place |
| Diff.SetsMirror | crates/surface-report/src/diff.rs:638-666 | Swapping the sides mirrors every change and exchanges the block of removals with the block of additions, each in its order |
| Diff.SortMirror | crates/surface-report/src/diff.rs:410-412 | Sorting commutes with mirroring |
| Diff.CountChanges | crates/surface-report/src/diff.rs:147-166 | The three counts are those of the changes and sum to their number |
| Diff.ComputeDiff | crates/surface-report/src/diff.rs:110-182 | Succeeds exactly for reports of one target and one supported schema family. Every part of the diff then says exactly what differs: for each key of addresses, ports, services, HTTP endpoints, certificates, DNS records and findings a change, with both values, if and only if the reports differ there; mail, intelligence, completeness and score (under one model) have theirs if and only if they differ; the counts add up to the number of changes |
| Diff.DiffExactly | crates/surface-report/src/diff.rs:110-182 | The value of the comparison says exactly what differs, part by part |
| Diff.DiffPatches | crates/surface-report/src/diff.rs:110-182 | Applying the changes of each category to that part of the old report gives that part of the new one |
| Diff.EmptyExactly | crates/surface-report/src/diff.rs:110-182 | The diff is empty if and only if the two reports agree on every part |
| Diff.ComparableExactly | crates/surface-report/src/diff.rs:110-127 | Which pairs are compared, and which of the errors the others get, first the target, then each schema, then the families |
| Diff.SwapMirrors | crates/surface-report/src/diff.rs:110-182 | Swapping the reports mirrors every change in the same order and exchanges added with removed; comparability is symmetric |
| Diff.SelfDiffIsEmpty | crates/surface-report/src/diff.rs:110-182 | A comparable report has no difference from itself |
| Findings.EmittedHaveBody | crates/surface-core/src/findings.rs:118-125 | Every emitted finding has the one fixed body of its rule: severity, category, references and confidence |
| Findings.BodyFollowsId | crates/surface-core/src/findings.rs:126-134 | Findings of one rule with equal target and evidence are equal |
| Findings.Deduplicate | crates/surface-core/src/findings.rs:126-134 | The growing-set filter keeps one finding per (id, target, evidence) and loses none |
| Findings.Emit | crates/surface-core/src/findings.rs:118-125 | The rule groups push, in order, exactly the findings that an observation warrants |
| Findings.PushExposure | crates/surface-core/src/findings.rs:325-398 | Hosts by port, then the services for SSH, then for SMTP; pushed are exactly the findings whose reason is an open database port, an SSH service or its legacy selections, or a confident SMTP service whose 250 banner lacks STARTTLS |
| Findings.GenerateFindings | crates/surface-core/src/findings.rs:109-154 | The result is strictly ordered, has no duplicate key, and a finding is in it if and only if it is warranted: it has the fixed body of its rule, and some observation is the reason of that rule, with that target and evidence |
| Findings.EmittedExactly | crates/surface-core/src/findings.rs:156-716 | Each of the twenty-two rules fires exactly when its reason is observed: the reasons are said rule by rule, as conditions on DNS, ports, services, HTTP and TLS observations |
| Findings.SortGenerates | crates/surface-core/src/findings.rs:135-153 | Sorting the filtered list gives such a result |
| Findings.EmittedSameSet | crates/surface-core/src/findings.rs:118-125 | Reordering hosts, services, HTTP and TLS observations emits the same set of findings |
| Findings.GeneratedIsUnique | crates/surface-core/src/findings.rs:135-153 | The result is determined by the set of emitted findings |
| Findings.ObservationOrderIsIrrelevant | crates/surface-core/src/findings.rs:109-154 | The identical list results for any permutation of hosts, services, HTTP and TLS observations |
| Exposure.CalculateExposure | crates/surface-core/src/exposure.rs:62-106 | The score of any list of findings: every deduction is charged for a finding of the list that is the first of its (id, target), with the points of its severity; deductions are sorted and complete; the value is 100 less their sum, not below 0, and its grade is by the four bands; incomplete exactly when the scan is |
| Exposure.ChargesAreFor | crates/surface-core/src/exposure.rs:63-83 | Every charge is for the first finding of its pair, with the points of its severity |
| Exposure.Deduct | crates/surface-core/src/exposure.rs:63-83 | The seen-set walk charges exactly the first finding of every pair that is worth points |
| Exposure.Fold | crates/surface-core/src/exposure.rs:85-91 | The saturating sum is the true sum up to the width of the counter |
| Exposure.ChargedExactly | crates/surface-core/src/exposure.rs:63-91 | The scoring never charges more than the worst finding of every pair, and exactly that if and only if no finding is worth more than an earlier one of its pair |
| Exposure.SortedNeverWorsens | crates/surface-core/src/findings.rs:135-153 | A list in severity order meets that condition |
| Exposure.GeneratedScore | crates/surface-core/src/exposure.rs:62-106 | The score of a generated list is 100 minus min(100, the sum over distinct (id, target) of the points of its worst severity) and depends on the set of findings alone; saturation loses nothing |
| Exposure.SubsetScores | crates/surface-core/src/exposure.rs:62-106 | The score never rises when findings are added |
| Exposure.WorstIsWorst | crates/surface-core/src/exposure.rs:108-116 | The points of a pair are an upper bound of all its findings, attained by one |
| Lifecycle.AddSkipKeeps | crates/surface-core/src/lifecycle.rs:11-22 | Adding a check keeps all entries and leaves one entry per check with its first reason |
| Lifecycle.AddSkipsKeep | crates/surface-core/src/lifecycle.rs:185-207 | The same for a list of checks |
| Lifecycle.UnfinishedExactly | crates/surface-core/src/lifecycle.rs:185-221 | Recorded as unfinished are exactly the selected checks of the failed stage and of the stages after it, stage by stage |
| Lifecycle.ScanReport.AddSkippedCheck | crates/surface-core/src/lifecycle.rs:11-22 | Appends an entry unless the check has one |
| Lifecycle.ScanReport.RecordSelectionSkips | crates/surface-core/src/lifecycle.rs:24-35 | Records every stage excluded by the selection |
| Lifecycle.ScanReport.Terminate | crates/surface-core/src/lifecycle.rs:37-65 | The whole report after a stop: status by kind and observations, one more error, the unfinished checks; nothing when the report has ended that way already |
| Lifecycle.ScanReport.RecordUnfinishedChecks | crates/surface-core/src/lifecycle.rs:185-207 | Records the unfinished checks with the reason of the stop |
| Lifecycle.ScanReport.Settle | crates/surface-core/src/lifecycle.rs:67-100 | Completed exactly without errors and without an indeterminate check, otherwise partial; an ended report stays as it is |
| Lifecycle.ScanReport.Finalize | crates/surface-core/src/lifecycle.rs:102-175 | The whole report after finalization, by what the two looks at the clock saw; those are consistent with a clock that only moves forward |
| Lifecycle.TerminateRecords | crates/surface-core/src/lifecycle.rs:37-65 | When a stop takes effect every selected check of its stage or later has exactly one entry, entries that were there keep their reason, new ones carry that of the stop, and no other is added |
| Lifecycle.TerminateSound | crates/surface-core/src/lifecycle.rs:37-65 | A stop that can have been seen keeps the report sound and an interruption recorded |
| Lifecycle.FinalizeSound | crates/surface-core/src/lifecycle.rs:102-175 | Finalization leaves a sound, started, finished report; interrupted stays interrupted, a cancellation seen before it interrupts, and no skipped check or observation changes |
| Lifecycle.ScoreBeforeLastStop | crates/surface-core/src/lifecycle.rs:120-175 | The score calls itself incomplete by the status before the last look at the clock: a report ends uncompleted with a score that claims completeness if and only if that last look stopped a settled report without skipped checks |
| Engine.Await | crates/surface-core/src/engine.rs:157-180 | A wait ends as cancelled or at the deadline only when that has happened; a biased one as cancelled whenever it has |
| Engine.ReadBaseline | crates/surface-core/src/engine.rs:147-208 | The baseline stage: stopped before or during, or the observation and its errors are in the report |
| Engine.ValidateDnssec | crates/surface-core/src/engine.rs:210-268 | The DNSSEC stage: a cut marks the result indeterminate; an inconclusive one is recorded as skipped |
| Engine.CheckTransfers | crates/surface-core/src/engine.rs:270-343 | The transfer stage, when it completes, adds in order one Network error per unreachable server, one Timeout error per timed-out one, one Resolution error per incomplete or oversized transfer, and none for the other outcomes; a stopped one adds none; the observation is kept either way |
| Engine.DetectWildcard | crates/surface-core/src/engine.rs:345-403 | The wildcard stage: cut exactly when its check was, its observation kept either way, an indeterminate one recorded |
| Engine.CheckDangling | crates/surface-core/src/engine.rs:405-471 | The CNAME destination stage, in the same way; without an alias it is recorded as skipped |
| Engine.ScanPorts | crates/surface-core/src/engine.rs:495-558 | The port stage: an expired deadline cuts before it, any stop after it, and otherwise the hosts are in the report |
| Engine.DetectServices | crates/surface-core/src/engine.rs:563-619 | The service stage, with the error for more than 256 open endpoints |
| Engine.OpenEndpointsExactly | crates/surface-core/src/engine.rs:574-580 | The count compared with the limit of 256 is the number of open ports of all hosts |
| Engine.AnalyzeSsh | crates/surface-core/src/engine.rs:621-656 | The SSH part rewrites the services even when it is stopped |
| Engine.AnalyzeHttp | crates/surface-core/src/engine.rs:658-705 | The HTTP stage, when selected |
| Engine.AnalyzeTls | crates/surface-core/src/engine.rs:707-757 | The TLS stage, when selected and the target is a name |
| Engine.FinishSelectedReport | crates/surface-core/src/engine.rs:770-790 | A cancellation at the last look cuts, booked on the port stage when there are no addresses; otherwise the report is settled |
| Engine.RunStages | crates/surface-core/src/engine.rs:131-768 | Every run of the stages is the outcome of its cut: what had been collected by then, stopped there, at a moment the selection reaches, and the cut has really happened; a stop that is there from the start always cuts |
| ScanRuns.OutcomeEnds | crates/surface-core/src/engine.rs:131-790 | After the stages every report is sound and started, keeps one entry per excluded stage and, after a cut, one per selected check of that stage or later; it has a preflight error exactly on an address family conflict |
| ScanRuns.CollectedOpen | crates/surface-core/src/engine.rs:131-768 | At no point before a cut does the report hold a stop, a repeated entry or a missing excluded stage |
| ScanRuns.Scan | crates/surface-core/src/engine.rs:75-96 | Every core run is the finalized outcome of a cut and of two looks at the clock that have really happened. Its status is said by the world and the last look: Interrupted if and only if that look saw a cancellation, Failed if and only if it saw the deadline and nothing was observed (or on a preflight conflict), Completed if and only if it saw neither and the network gave nothing to complain of; Interrupted has exactly one Cancelled error and others none; the findings are those of the observations, the score is theirs; one entry per excluded stage and per check left undone |
| ScanRuns.Undisturbed | crates/surface-core/src/engine.rs:131-790 | A run that sees no stop is its last stage settled and scored |
| ScanRuns.SkipsExactly | crates/surface-core/src/engine.rs:131-768 | Its skipped checks are exactly the excluded stages, the checks that do not apply and the indeterminate ones |
| ScanRuns.ObservedExactly | crates/surface-core/src/engine.rs:131-768 | Its observations are everything selected that applies. Its errors, said of the world: those of the baseline, one per failed, timed-out or otherwise ended lookup, one per unreachable, timed-out, incomplete or oversized transfer of a check that was made, and one error for more than 256 open endpoints |
| ScanRuns.CompletesExactly | crates/surface-core/src/lifecycle.rs:67-100 | It completes if and only if the network gave it nothing to complain of: addresses, no failed lookup, no transfer other than allowed, refused, not authoritative or cancelled, at most 256 open endpoints where services are selected, no indeterminate check |
| ScanRuns.StatusExactly | crates/surface-core/src/engine.rs:75-96 | The status of every run, cut or not, by the world and the last look at the clock; the findings are kept and the score is that of them |
| ScanRuns.ExcludedObservesNothing | crates/surface-core/src/engine.rs:131-768 | An excluded stage observes nothing, wherever the run is cut |
| ScanRuns.CompleteScoreOfStoppedRun | crates/surface-core/src/lifecycle.rs:102-175 | A run whose deadline passes during the commit: it ends partial, with a score that calls itself complete |
| ScanRuns.LaterStagesWithoutStop | crates/surface-core/src/engine.rs:474-490 | Without addresses the selected later stages get no entry, unless the scan is cancelled: then all do |
| ScanRuns.CutKeepsEarlierStages | crates/surface-core/src/engine.rs:492-768 | A cut keeps what the earlier stages observed and has nothing of the later ones |
| ScanRuns.SelectionRecorded | crates/surface-core/src/lifecycle.rs:24-35 | The selection leaves exactly one entry per excluded stage |
| ScanCommand.OnlyIsLeast | crates/surface-core/src/lib.rs:231-244 | The selection is the least one that has the requested stages and what they need |
| ScanCommand.SelectedExactly | crates/surface-cli/src/main.rs:379-396 | Which stages the parts of --only select, stage by stage: HTTP and TLS only themselves or nothing at all given, services also with either, ports with any of the four |
| ScanCommand.MarkIntelligenceSourceError | crates/surface-cli/src/main.rs:1299-1322 | Marks the intelligence incomplete with one error per source and one entry |
| ScanCommand.MarkIntelligenceStopped | crates/surface-cli/src/main.rs:1324-1348 | Interrupts or demotes, and records the applicable checks that have no entry |
| ScanCommand.RecordSkip | crates/surface-core/src/intelligence.rs:1199-1212 | Puts the new reason into the entry of the check, or appends one |
| ScanCommand.FinishLookups | crates/surface-core/src/intelligence.rs:1142-1190 | The finishers of route and registration lookups: a cancellation interrupts unless the scan failed, a deadline or failure demotes, and each is recorded |
| ScanCommand.GatherExplicit | crates/surface-cli/src/main.rs:455-516 | The explicit inputs: answered, refused or stopped |
| ScanCommand.GatherIntelligence | crates/surface-cli/src/main.rs:455-628 | All sources in order, each when it is selected and configured |
| ScanCommand.RecordIntelligenceSkips | crates/surface-cli/src/main.rs:1350-1385 | Pushes an entry for every input that was not supplied, without looking for earlier ones |
| SourceRecords.PutKeeps | crates/surface-core/src/intelligence.rs:1501-1514 | Overwriting a reason touches the entry of that check alone and keeps the list distinct |
| SourceRecords.EntriesExactly | crates/surface-cli/src/main.rs:455-654 | The entries that the sources and the missing inputs add, check by check: present exactly when the check was left out, unsupplied, stopped or failed, with the reason that says which |
| SourceRecords.IntelligenceExactly | crates/surface-cli/src/main.rs:455-628 | Whether there is an intelligence part, and that it is complete exactly when every source that was asked answered completely |
| CommandRuns.MissingStayDistinct | crates/surface-cli/src/main.rs:643-654 | The unchecked pushes never repeat a check that could have been recorded before, and record every unsupplied input |
| CommandRuns.LookupsStayLive | crates/surface-core/src/intelligence.rs:1142-1190 | Lookups keep the invariants of a command run |
| CommandRuns.ExplicitStaysLive | crates/surface-cli/src/main.rs:455-516 | So do the explicit inputs |
| CommandRuns.SourceStaysLive | crates/surface-cli/src/main.rs:580-628 | So do the passive sources |
| CommandRuns.CompletedExactly | crates/surface-cli/src/main.rs:455-628 | After the sources the report is completed if and only if it was and every source that was asked answered completely without a stop |
| CommandRuns.LookupsAreRecorded | crates/surface-core/src/intelligence.rs:1142-1212 | Lookups that did not run or failed have their entry with the reason |
| CommandRuns.LateCancellation | crates/surface-cli/src/main.rs:639-642 | The step from the report before the noticed cancellation to the final one: interrupted for good, no error added |
| CommandRuns.InterruptedWithoutError | crates/surface-cli/src/main.rs:639-655 | A course that can happen and ends Interrupted without an error: a scan of the stages alone, completed, and cancelled before the look after the sources |
| CommandRuns.FinalizationRecords | crates/surface-core/src/lifecycle.rs:102-175 | An interruption that only finalization brings adds its one Cancelled error |
| CommandRuns.RunCommand | crates/surface-cli/src/main.rs:374-655 | Every run of the command ends in the report of a course that has really happened: a cut, a stop of the explicit inputs, what the look after the sources saw, and two looks of the finalization. What is in the report is said of the arguments and the world (CourseContains), and it has the invariants of CourseKeeps |
| CommandRuns.CourseKeeps | crates/surface-cli/src/main.rs:374-655 | Every course that can happen ends in a report with one entry per check, the entries of the stages kept with their reasons, Completed only with complete intelligence and a completed scan (and then, undisturbed, always), an interrupted scan still interrupted with one error, at most one Cancelled error; an Interrupted report has its Cancelled error if and only if the stages had been interrupted or the look after the sources saw no cancellation |
| CommandRuns.CourseContains | crates/surface-cli/src/main.rs:374-655 | A part that --only leaves out is not observed and has its entry; the entries of the sources and the intelligence part are as in EntriesExactly and IntelligenceExactly; Completed if and only if no stop was seen at the end, the network gave nothing to complain of and every source that was asked answered completely |

## Left out

- Sockets, TCP and TLS handshakes, the DNS resolver, HTTP clients, the real clock and task scheduling: traces, worlds, completion orders and a two-instant clock stand for them.
- IDNA and URL parsing, JSON and X.509 parsing, SQL execution, signal handling and output files: their results are inputs.
- The wording of findings, reasons, errors and messages: rules are identified by constructors in the alphabetical order of their texts, messages by what they say.
- Addresses, scan identifiers and instants are numbers; the target of a report is what the modelled code looks at of it.
- Rendering of reports and diffs as text, HTML, SARIF and CycloneDX, the table of port hints and banner classification, and display caps: lookups without a deeper property.
- The builders that turn report parts into keyed JSON values before they are compared; `Diff` compares arbitrary maps and sets.
- Schema migrations, persisting and querying of reports: only deletion and retention change the modelled tables.
- Subject alternative names and fingerprints of certificates, and the key length of elliptic curves.
- Parsing of RDAP, RIPEstat, certificate transparency and related-domain responses; a source is complete, incomplete, failed or stopped.
- The observations inside the intelligence part of a report, their sorting and deduplication; only completeness, errors and skipped checks are modelled.
- The CVE correlation, mail policy interpretation and DKIM parsing.
- How many attempts the AXFR check makes and in which order; `Axfr` models one endpoint, `Engine` the outcomes of all.
- The limitation texts that a stopped or inconclusive DNS check adds to its observation.
- ScanRuns.Scan: findings are the result of an arbitrary rule function on the observations; `Findings` proves what the real rules generate.
- Restore.BackupDatabase: opening a database file that does not exist creates it in the original; the model leaves that file alone.
- Restore.RestoreDatabase: file contents are opaque and verification is a predicate on them; write-ahead-log siblings of a database are not modelled.
- LongestMatch: is the selection inside the network correlation; sorting its output by address is left out.
