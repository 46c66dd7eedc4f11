# Providence chain and broker, verified model

A Dafny 4.11 model of the AIDA-Guard Providence chain writer and of the broker's authorization path, with proofs.
`dafny verify dfyconfig.toml` checks all of it.

## What is modelled

**The chain writer** (`Log`, `ChainFile`, `AnchorNames`, `Recovery`, `Paging`, `Serving`, `Writers`). A directory is
chain bytes, a head file, a temporary head and the anchor files. `ProvidenceLog` is a class over it with the
source's fields. One append is its sub-steps: encode, append the line, read the head, write the temporary file,
rename, sync the directory; a `Fault` says what each of them does. A line may stop after any number of its bytes,
and a head or anchor file may tear, which is a file that does not parse; either with an error or, because nobody
reads the count `writeSync` returns, without one. A file write that throws may also have left the file as it was, or
whole. A process that dies leaves what a failure at that sub-step leaves. Startup is `OpenHead` then `IndexLines`.
Directory operations persist in the order they are made. Appends are synchronous, so one append is atomic towards
other instances in the same process. `Recovery` runs one live writer at a time, `Writers` any number of them, with
the same faults.

**The encoding** (`Unicode`, `Json`, `Canonical`, `Nesting`, `Encoding`, `Preimages`, `History`). Strings are UTF-16
code units with a concrete UTF-8 encoder. JSON values are a datatype with members in insertion order, and two
objects are the same when they hold the same members. SHA-256 is an abstract function. No lemma assumes it
collision-free: where that is needed the conclusion is "the same, or these very bytes collide", with the colliding
preimages named.

**The scheduler** (`Scheduler`, `Exports`). The chain of promises is a queue of attempts, each with a stretch before
its signature and one after, interleaved with every step of the log.

**Authorization** (`Lineage`, `Labels`, `Policy`, `Bindings`, `Invoke`, `Context`, `Envelopes`, `Notes`, `Broker`,
`Replies`, `Evidence`, `Unrecorded`). The label lattice and session store, the policy engine, the reference
bindings, and `/v1/invoke` cut at its awaits. `Invoke` gives each stretch between two awaits as a class method
proved against a function, and `Context` does so for the registration route; `Broker` interleaves those functions
with context registrations, admissions, derivations, revocations, other routes' appends and log failures. Work
behind a deadline is a step of its own, so it may take effect before or after the deadline expires. The broker's log
is the crash-prone log of `Recovery`. A handler that throws gets the framework's 500, and its cause is kept: an
awaited service, the envelope's digest, a record the schema or the encoder rejected, or a log that refused or
failed. Records are written out in full: the ten string fields and the metadata as JSON. `Replies` and `Evidence`
say of every record what it is evidence of.

`Guarantees` puts encoding, chain and scheduler together.

## Where the code and its promises part

- A chain id with a lone surrogate is accepted and its commitment equals another id's: `Encoding.ChainIdsCollide`.
  The commitment theorems therefore conclude equality of the ids' UTF-8, and of the ids themselves when both are
  well-formed.
- The adapter documents strict-only operations as refused outside strict and scif; it forwards them under `relaxed`.
  `Policy.GateExactly` gives the exact condition.
- `page(from)` with `from` beyond the head answers a `next` smaller than `from`: `Paging.BeyondTheHead`.
- Startup is documented to refuse after an append that did not finish. It also refuses, for good, after a first
  start whose head write tore (`Recovery.TornFirstHead`), though no append ever ran, and after a write that fell
  short without an error, though every append returned (`Recovery.ShortLineReturned`): the count `writeSync` returns
  is ignored. `Recovery.ExactRecovery` is the exact condition for startup, and `Paging.IndexRefinesFile` that for
  pages: once a line before the head fell short, the index no longer describes the file.
- An anchor write that falls short without an error is taken for anchored, also by `stop`: `Scheduler.StopAnchors`.
- With several writers a restart can accept a file that is not the committed chain. It cannot as long as no append
  leaves a part of its line (`Writers.SharedRecovery`); `Writers.TornLineAccepted` and `Writers.LostLineAccepted`
  are runs of two that do.
- Every decision is to leave a record. An invoke's is there if and only if the log accepts it and the rename takes
  effect (`Broker.DecisionRecordedExactly`), and over a log that serves exactly when its note's texts encode
  (`Broker.DecisionEncodesExactly`). Inputs can therefore lose it without any fault; the client is told 500. One is
  an envelope that `jcs` refuses, such as one holding 0.5: its digest is taken after the transport has answered
  (`Broker.UndigestibleIsLost`, with the run `Unrecorded.ForwardedWithoutRecord`). Another is an untrusted element
  registered with lone surrogates for a content hash: the registration's own record does not hold it, and from then
  on every success and every policy denial of the session lists them as ancestors and is rejected (the run
  `Unrecorded.ForwardedAndRejected`). So are a declared intent, a device id, a transport's name or version, or an
  error text that are not well-formed. `Broker.CallRecordedExactly` is the exact condition for a transport call,
  `Notes.RecordEncodesExactly` that for any record of a route.
- A torn anchor file makes every page that covers its name throw, and no other page: `Paging.PageServedExactly`.
- Anchor names sort by position only below 10^12: `AnchorNames.NameGivesSeq`.
- Revocation is read when the token is verified and not again, and neither the token's operation set nor the
  envelope's session is consulted by `/v1/invoke`; the theorems claim nothing of the kind.
- Timeouts of the token, nonce and envelope stages are recorded as forwarded operations, as the code does.

## Model

| member | source | states |
|---|---|---|
| Recovery.CrashSafety | packages/providence-log/src/log.ts:173-224 | Main result. Over every run of opens, appends, I/O errors and short writes at any sub-step, deaths at any sub-step, kills and restarts by one writer at a time: a directory a restart accepts holds exactly the renamed-in records, one newline-terminated line each, record i with seq i linked to the digest of record i-1 from genesis, the head naming the last, and every append that ever returned is there at its seq with its bytes |
| Recovery.ExactRecovery | packages/providence-log/src/log.ts:299-350 | Main result. The total decision: in every reachable state a restart refuses if and only if some append put at least one byte of its line in the chain file and ended before its rename took effect, or some line fell short without an error while its append renamed, or the head file is torn; otherwise it accepts at exactly the head of everything renamed in |
| Recovery.RecoveryAsDocumented | packages/providence-log/src/log.ts:299-350 | The rule the documentation gives: with a head file that parses and no write cut short without an error, a restart refuses exactly after an append that reached the chain file and not its rename |
| Recovery.TornFirstHead | packages/providence-log/src/log.ts:302-309 | A first start whose head write tears is a reachable state in which no append ran and every restart refuses |
| Recovery.ShortLineReturned | packages/providence-log/src/log.ts:428-436 | An append whose line falls short without an error renames and returns, and every restart refuses |
| Recovery.RefusalIsFinal | packages/providence-log/src/log.ts:164-166 | After an append fails, or the log is told to refuse, no later call in that process changes the chain file, the head file or the first reason |
| Recovery.RecoverDecides | packages/providence-log/src/log.ts:299-350 | Startup over a committed chain followed by any stray bytes accepts exactly when there are none, at the chain's own head |
| Recovery.StepKeeps | packages/providence-log/src/log.ts:173-224 | Every step keeps: the file starts with the committed lines and has more bytes exactly when an append stopped short of its rename, until a line falls short, after which it starts with the lines before that one and startup refuses; the head on disk is the last renamed one; a live instance's head and index describe a committed prefix, which the file holds exactly when no line fell short before the head; every returned record is committed |
| Recovery.ChainGrows | packages/providence-log/src/log.ts:198-217 | Appending the composed record keeps the chain linked and adds exactly its line and newline to the bytes |
| Recovery.ServesNext | packages/providence-log/src/log.ts:217-219 | Pushing the old length as offset and adding the line's byte length keeps the index that of the longer chain |
| Log.ProvidenceLog.constructor | packages/providence-log/src/log.ts:119-138 | A new instance has the head and index startup decided on, or refuses; the directory changes only by the head file created when there was none; it serves at a position above 0 only when the last line parses to a record at the position before it whose digest is the head's |
| Log.OpenedServesExactly | packages/providence-log/src/log.ts:119-138 | What the constructor's contract says of a new instance is what the recovery theorems speak of: it serves exactly when startup accepts the directory, at that head, unless the first head write over a new directory throws |
| Log.StartupExactly | packages/providence-log/src/log.ts:299-350 | Main result. For every directory, however it came about: a new instance serves exactly when the head file names its own head under the configured chain id, the chain file is whole lines, as many as the head counts, and the last of them parses to an encodable record at the position before the head whose recomputed digest is the head's, or there is none and the head is at genesis, 32 zero bytes; or when there is neither head file nor record and the first head write does not throw |
| Log.EditedLastIsRefused | packages/providence-log/src/log.ts:322-329 | Whatever replaces the last line, startup refuses unless it parses to a record of the digest the head file names |
| Log.ProvidenceLog.OpenHead | packages/providence-log/src/log.ts:299-331 | Returns a head only when chain id, last line, its seq and its recomputed digest agree with the head file; every other case throws; creates the genesis head only over an empty or missing chain |
| Log.ProvidenceLog.IndexLines | packages/providence-log/src/log.ts:333-350 | Succeeds exactly when the file has no partial line and as many lines as the head names, and then sets the index of the file; otherwise leaves the index unset |
| Log.ProvidenceLog.RefuseFrom | packages/providence-log/src/log.ts:164-166 | The first reason stays |
| Log.ProvidenceLog.Append | packages/providence-log/src/log.ts:173-224 | Directory, fields and answer after an append, for each outcome of each sub-step's I/O, a write cut short without an error among them; an entry the schema or the encoder rejects changes nothing |
| Log.AppendReturnsExactly | packages/providence-log/src/log.ts:173-224 | An append returns exactly when the log accepts, the record encodes, no sub-step throws and the head on disk is the instance's; what it returns is the record at the next position, at this time, with the fields, payload and metadata it was handed, linked to the head, and the head then names it |
| Log.OtherwiseRefuses | packages/providence-log/src/log.ts:173-224 | Any other append changes nothing, when the log refused before or the record does not encode, or leaves the log refusing; the chain file only ever grows, by at most the line and its newline |
| Log.ProvidenceLog.Encode | packages/providence-log/src/log.ts:180-200 | Gives the line with its newline and the digest exactly when the schema and the encoding accept the record |
| Log.ProvidenceLog.ReplaceHead | packages/providence-log/src/log.ts:352-364 | The head is replaced only over the head this writer expects, by rename; what is left in the temporary file at each failure |
| Log.ProvidenceLog.Page | packages/providence-log/src/log.ts:265-295 | A page equals the page specification, or throws in the same cases |
| Log.ProvidenceLog.ReadLines | packages/providence-log/src/log.ts:273-286 | One byte range from the index, refused unless it is whole lines and as many as expected, each at the seq of its position |
| Log.ProvidenceLog.ReadAnchors | packages/providence-log/src/log.ts:287-293 | The anchors after `from` up to `to`, in name order, and the genesis one at 0 |
| Log.ServeAll | packages/providence-log/src/log.ts:281-285 | The loop over a page's lines serves all of them or throws |
| Log.ProvidenceLog.BeginExport | packages/providence-log/src/log.ts:230-235 | Head and commitment are captured before the signature is awaited, and only when the log does not refuse |
| Log.ProvidenceLog.FinishExport | packages/providence-log/src/log.ts:236-251 | The captured anchor is written under its position and time, over a file of the same name, or left torn |
| Log.V3Faithful | packages/providence-log/src/log.ts:199-200 | Encoding v3 meets what the chain-level proofs assume of an encoding: a record that encodes is one line and parses back to itself, and a line that was started and not ended never parses together with a line that follows it |
| Paging.IndexRefinesFile | packages/providence-log/src/log.ts:265-295 | Main result. In every reachable state the offsets and length kept by `append` are the index of the committed prefix. The file holds that prefix exactly when no line before the head fell short without an error, and then a page by byte range returns exactly lines [from, min(head, from+limit)) of the plain line list, each with its seq and recomputed digest |
| Serving.PagesNeverWrong | packages/providence-log/src/log.ts:273-286 | Main result. In every reachable state, whatever fell short or was left behind: a page of records that is served is the plain list's; a byte range that no longer holds the lines asked for is refused |
| Serving.V3Unmixed | packages/providence-log/src/log.ts:273-286 | Encoding v3 meets what that needs: a line is read only from its start and only as a whole |
| Paging.PageRefinesLines | packages/providence-log/src/log.ts:273-286 | The page by byte range equals the slice of the plain list for every from and every limit of at least 1 |
| Paging.CrawlRebuilds | packages/providence-log/src/log.ts:265-295 | Main result. Following `next` from 0 with any limits of at least 1 ends, serves every committed record once in order with lines that concatenate to the committed chain bytes, and serves every anchor with head_seq up to the head exactly once in position order |
| Paging.PageServedExactly | packages/providence-log/src/log.ts:287-293 | A page throws exactly when one of the anchor files in its range is torn; records never make it throw |
| Paging.PageIsHonest | packages/providence-log/src/log.ts:265-295 | Over any directory and any instance: each record a page serves is what its line parses to, at the position it is served at, with the digest recomputed from it, its bytes from the chain file; and there are as many as the page covers |
| Guarantees.CrawlAfterAnyRun | packages/providence-log/src/log.ts:265-295 | In any state the writer and its scheduler reach, with every anchor file whole and below the name limit and no line before the head cut short without an error, following `next` from 0 rebuilds the committed records and anchors |
| Serving.CrawlWhileItGrows | packages/providence-log/src/log.ts:265-295 | Main result. Pages requested from 0 on, each from the `next` of the one before, with any appends, failures, deaths and restarts in between: the records served are the committed ones up to the last `next`, once each, in order |
| Paging.CrawlTiles | packages/providence-log/src/log.ts:272-294 | Pages that each make progress and hold the stretch up to their `next` put records and anchors together without gap or repeat |
| Paging.SortedInPosition | packages/providence-log/src/log.ts:253-256 | Anchor files sorted by name are in position order |
| Paging.BeyondTheHead | packages/providence-log/src/log.ts:272-294 | The code does not promise progress beyond the head: `next` is behind `from` exactly when `from` is beyond the head, and the page is then empty |
| ChainFile.IndexBytes | packages/providence-log/src/log.ts:336-344 | The byte loop computes the offset of every line, and ends at the length exactly when there is no partial line |
| ChainFile.IndexUnique | packages/providence-log/src/log.ts:333-350 | A file has one index: whatever `append` keeps that is an index of the prefix is what startup would compute |
| ChainFile.SplitJoin | packages/providence-log/src/log.ts:394-401 | Joining newline-free lines and splitting again gives the lines back with nothing partial |
| ChainFile.JoinSplit | packages/providence-log/src/log.ts:394-401 | Any bytes are their whole lines followed by their partial line |
| AnchorNames.NameGivesSeq | packages/providence-log/src/log.ts:248-290 | The first twelve characters of an anchor name read back as its position if and only if the position is below 10^12 |
| AnchorNames.NameGivesTime | packages/providence-log/src/log.ts:248 | And what stands between the dash and the ending is the time, in decimal digits |
| AnchorNames.NamesInOrder | packages/providence-log/src/log.ts:253-256 | Below 10^12, an earlier name never has a later position |
| Scheduler.AnchorsNamePrefixes | packages/providence-log/src/log.ts:230-251 | Main result. Over all interleavings of appends, timer ticks, the first-append listener, pending, failed and late signatures, torn anchor writes, stop, crashes and restarts: every anchor on disk names the length and last digest of a prefix of the committed chain, with the commitment to that head, under the name of that position |
| Scheduler.OneExportAtATime | packages/providence-log/src/scheduler.ts:51-64 | At most one export of a scheduler is in flight, and the positions it anchors strictly increase |
| Exports.AnchorsAreExports | packages/providence-log/src/log.ts:230-251 | Main result. Over all interleavings: every anchor file that parses holds exactly what some attempt captured when it began, its head, the commitment to it and the time, with the signature that arrived for that attempt, under that position and time |
| Exports.SettledIsFiled | packages/providence-log/src/log.ts:236-251 | A signature that arrives, and a complete write, leave exactly that file |
| Exports.StopLeavesSigned | packages/providence-log/src/scheduler.ts:67-72 | The file for the head that the attempt queued by stop read carries the signature that arrived for a capture of that head, with the one exception of a write cut short |
| Exports.FirstAppendQueues | packages/providence-log/src/scheduler.ts:43-45 | An attempt is queued by the first append that returns in a process, and by no other |
| Scheduler.StopAnchors | packages/providence-log/src/scheduler.ts:67-72 | Main result. When the attempt queued by the first stop is done, the log refuses or an anchor is on disk for the head that attempt read, which is no shorter than the chain was at stop; with nothing appended since, that is the final head. The exact exception is an anchor write that was cut short without an error: then a torn file of that position is there instead |
| Scheduler.FailedStaysStill | packages/providence-log/src/scheduler.ts:58-62 | Once an append or an anchor failed, nothing the process does later, whatever is pending, touches the chain or head file |
| Scheduler.EventKeeps | packages/providence-log/src/scheduler.ts:51-72 | Every event keeps the scheduler invariant: attempts run in order, a pending anchor is above the last and within the chain, a finished attempt left an anchor for the head it read or a refusing log |
| Scheduler.PutKeepsFiles | packages/providence-log/src/log.ts:248-250 | Writing an anchor file, whole or torn, keeps every file sound: what parses names a committed prefix under its own name, and names stay distinct |
| Scheduler.AnchorScheduler.OnAppend | packages/providence-log/src/scheduler.ts:43-45 | An attempt is queued on the first record after startup and on no other |
| Scheduler.AnchorScheduler.AnchorNow | packages/providence-log/src/scheduler.ts:51-64 | Queues one attempt behind those pending |
| Scheduler.AnchorScheduler.Stop | packages/providence-log/src/scheduler.ts:67-72 | The first call queues a last attempt; later calls do nothing |
| Scheduler.AnchorScheduler.Begin | packages/providence-log/src/scheduler.ts:52-57 | The attempt before its signature: nothing when the log refuses or the head did not move; else the head is captured, or the log refuses when that fails |
| Scheduler.AnchorScheduler.Settle | packages/providence-log/src/scheduler.ts:57-62 | The attempt after its signature: anchor written and position remembered, or the log refuses |
| Writers.SharedRecovery | packages/providence-log/src/log.ts:299-350 | Main result. Any number of instances over one directory, any I/O errors, under the one condition that no append leaves a part of its line (it leaves all of it, or throws before its first byte): a restart refuses if and only if some line was left without its rename or the head file is torn; otherwise it accepts at the head of everything renamed in, the file holds exactly those lines, and every returned append is among them |
| Writers.RunKeepsShared | packages/providence-log/src/log.ts:202-216 | Over any such run the committed chain only grows, and so does the number of lines that were left without their rename |
| Writers.FirstWriterWins | packages/providence-log/src/log.ts:352-359 | Of two live instances at one head, under any I/O errors that leave no line in part: once an append of one takes effect, the other never commits again |
| Writers.AppendDecides | packages/providence-log/src/log.ts:202-216 | An append with any I/O errors that leaves no line in part: if its rename takes effect it commits and every other live instance is behind; if not, it commits nothing, refuses from then on, and leaves at most one stray line; by a stale instance the rename never takes effect |
| Writers.StaleAppendIsFinal | packages/providence-log/src/log.ts:333-346 | Main result. After one append by a stale instance that left its line, whatever is opened or appended later, with whatever I/O errors that leave no line in part, no startup accepts the directory |
| Writers.TornLineAccepted | packages/providence-log/src/log.ts:299-350 | The condition is needed: a run of two instances from an empty directory in which one append leaves one byte of its line, and a restart accepts a file whose first line is no record, for every hash and chain id |
| Writers.LostLineAccepted | packages/providence-log/src/log.ts:428-436 | So is its second half: one line lost without an error, its place taken by a line that was never renamed in, and a restart accepts a file without a record whose append returned |
| Unicode.WellFormedExactly | packages/providence-log/src/encoding.ts:49-53 | The lookaround test for lone surrogates holds exactly for the strings that replacing lone surrogates leaves unchanged |
| Unicode.Utf8Decodes | packages/providence-log/src/encoding.ts:109-112 | Decoding the UTF-8 bytes of any string gives the string with each lone surrogate replaced |
| Unicode.Utf8EqualExactly | packages/providence-log/src/encoding.ts:109-112 | Two strings have the same bytes exactly when they agree after that replacement |
| Unicode.Utf8Injective | packages/providence-log/src/encoding.ts:109-112 | UTF-8 is injective on well-formed strings |
| Json.ParseInvertsPrint | packages/providence-log/src/encoding.ts:183 | A parser inverts the JSON printer for values of any depth |
| Json.PrintClean | packages/providence-log/src/encoding.ts:183 | Printed JSON is well-formed and holds no control character, so no newline, whatever its strings hold |
| Json.PrintedShortest | packages/providence-log/src/encoding.ts:55-59 | No text shorter than the printed one reads as the string: short escapes are used where there are any, and nothing is escaped that need not be |
| Json.EscapesLowercase | packages/providence-log/src/encoding.ts:55-59 | And the digits of the escapes that are left are lower-case, as RFC 8785 section 3.2.2.2 has it |
| Canonical.JcsExactly | packages/providence-log/src/encoding.ts:65-88 | `jcs` accepts a value exactly when all its strings are well-formed, its numbers safe integers and no member is undefined, and then gives the canonical text |
| Canonical.ParseInvertsJcs | packages/providence-log/src/encoding.ts:65-88 | Main result. Parsing `jcs(v)` gives a value that is the same as v, objects compared as unordered maps, at any depth |
| Canonical.JcsDecidesSame | packages/providence-log/src/encoding.ts:65-88 | Main result. `jcs(v) = jcs(w)` exactly when v and w are the same value, whatever the insertion order |
| Canonical.CanonExactly | packages/providence-log/src/encoding.ts:79-85 | Sorting members at every level gives one form per value: equal exactly when the values are the same |
| Canonical.SortSorts | packages/providence-log/src/encoding.ts:83-84 | The member sort is a permutation in strictly increasing UTF-16 order |
| Canonical.BeforeExactly | packages/providence-log/src/encoding.ts:83-84 | One key is before another exactly when it is a proper beginning of it or has the smaller code unit where they first differ |
| Canonical.CanonicalJsonPrints | packages/nie-bindings/src/mock.ts:22-31 | The bindings' canonical printer prints the canonical form |
| Encoding.LpCancel | packages/providence-log/src/encoding.ts:35-40 | A length-prefixed field can be read off the front of any bytes that follow |
| Encoding.U64Injective | packages/providence-log/src/encoding.ts:42-47 | Eight big-endian bytes determine the integer, for every integer the code accepts |
| Preimages.BigEndianReads | packages/providence-log/src/encoding.ts:35-47 | Bytes read most significant first give the integer back, whatever the width |
| Preimages.RecordPreimageReads | packages/providence-log/src/encoding.ts:100-117 | Main result. A reader of the format, most significant byte first, field by field, reads the hashed bytes as the record domain, kind 2, and the record: seq, time, the ten strings, payload, metadata and link, in this order, with nothing behind them |
| Preimages.HeadPreimageReads | packages/providence-log/src/encoding.ts:119-127 | The same for a head commitment: domain, seq, digest and the chain id as far as UTF-8 can tell |
| Preimages.AnchorPreimageReads | packages/providence-log/src/encoding.ts:129-145 | The same for an anchor message: domain, commitment, time, algorithm, key id and public key |
| Preimages.LineSays | packages/providence-log/src/encoding.ts:160-184 | A line parses to one object of seventeen members, each under its documented name and in the documented order |
| Preimages.HexDigits | packages/providence-log/src/encoding.ts:94-97 | The hex of a digest has two lower-case digits a byte, the high one first |
| Encoding.BlobDecidesSame | packages/providence-log/src/encoding.ts:90-92 | Equal blobs mean the same value; null is told apart from an empty object |
| Encoding.PreimageDecidesRecord | packages/providence-log/src/encoding.ts:100-117 | Main result. Two encodable records have equal digest preimages exactly when they agree in seq, timestamp, all ten strings, payload, metadata and prev_digest |
| Encoding.FeedFields | packages/providence-log/src/encoding.ts:108-112 | The loop over the string fields feeds each length-prefixed, or throws at the first that is not well-formed |
| Encoding.FeedBlob | packages/providence-log/src/encoding.ts:113-114 | Feeds the canonical blob, or throws |
| Encoding.RecordDigest | packages/providence-log/src/encoding.ts:100-117 | Hashes exactly the preimage, and throws exactly on records outside the encoding |
| Encoding.HeadCommitment | packages/providence-log/src/encoding.ts:119-127 | Hashes exactly the head preimage, and throws exactly out of range |
| Encoding.HeadPreimageExactly | packages/providence-log/src/encoding.ts:119-127 | Head preimages are equal exactly when seq, digest and the UTF-8 of the chain id are |
| Encoding.ChainIdsCollide | packages/providence-log/src/encoding.ts:119-127 | Two different chain ids the constructor accepts, differing in a lone surrogate, have one head preimage: the unchecked chain id is the exact exception |
| Encoding.AnchorPreimageFixes | packages/providence-log/src/encoding.ts:129-145 | Equal anchor messages mean equal commitment, time, algorithm, key id and public key |
| Encoding.HexRoundTrip | packages/providence-log/src/encoding.ts:94-97 | Lowercase hex of a digest reads back as the digest |
| Encoding.LineRoundTrip | packages/providence-log/src/encoding.ts:160-184 | A record's line holds no byte 0x0a and parses back to the record, so the digest recomputed from it is the one `append` returned |
| Encoding.LinesNeverMerge | packages/providence-log/src/encoding.ts:160-184 | Any bytes that start with a brace, followed by the line of a record, are not the line of any record: a started line and the next one never read as one |
| Encoding.LineReadsFromItsStart | packages/providence-log/src/encoding.ts:160-184 | Any bytes followed by the line of a record are not the line of any record |
| Encoding.LineReadsWhole | packages/providence-log/src/encoding.ts:160-184 | Nor is what is left of a record's line behind its start, though metadata may hold whole objects |
| Nesting.MergedIsNoJson | packages/providence-log/src/encoding.ts:160-184 | Text that opens an object, followed by the whole text of an object whose first key does not start with a comma, a colon or a closing bracket, is not JSON: the brackets and quotes of the first are still open where the second ends |
| History.LastDigestDeterminesChain | packages/providence-log/src/encoding.ts:100-117 | Two linked chains of one length and last digest are equal record by record, or one position shows two preimages with one hash |
| History.CommitmentDeterminesHistory | packages/providence-log/src/encoding.ts:119-127 | Main result. Equal head commitments mean one chain id and one history, record by record, or an explicit hash collision at those heads or records |
| History.HistoryDeterminesCommitment | packages/providence-log/src/encoding.ts:119-127 | The converse: the same history under one id has one commitment |
| Guarantees.CommitmentFixesDirectory | packages/providence-log/src/log.ts:322-330 | Main result. Two directories that restarts accept, whatever crashed before, hold the same records when their heads have one commitment, or exhibit a hash collision |
| Guarantees.AnchorFixesPrefix | packages/providence-log/src/log.ts:230-251 | Main result. Two anchors on disk with one commitment, from any two runs, name the same prefix record by record, or exhibit a hash collision |
| Guarantees.CommittedInSchema | packages/providence-log/src/log.ts:180-200 | Over every run, each committed record obeys the schema at its position: safe integers, ten well-formed strings, a known event type, fingerprint, session and digest of 64 lower-case hex or empty, payload and metadata encodable objects or null |
| Lineage.CanonicalExactly | packages/shared-types/src/lineage.ts:66-71 | Two labels have one canonical form exactly when they have the same classification and the same set of origins |
| Lineage.ClassificationOrder | packages/shared-types/src/lineage.ts:41-53 | The classifications are ordered public, sensitive, regulated, classified-adjacent |
| Lineage.JoinIsLub | packages/shared-types/src/lineage.ts:78-102 | The join covers both labels and is covered by exactly the labels that cover both |
| Lineage.LeqAntisymmetric | packages/shared-types/src/lineage.ts:97-102 | Canonical labels that cover each other are equal |
| Lineage.JoinCommutes | packages/shared-types/src/lineage.ts:78-84 | Join is commutative as a value, not only up to order of origins |
| Lineage.JoinAssociates | packages/shared-types/src/lineage.ts:78-84 | Join is associative |
| Lineage.JoinIdempotent | packages/shared-types/src/lineage.ts:78-84 | Joining a label with itself gives its canonical form |
| Lineage.JoinTaints | packages/shared-types/src/lineage.ts:78-93 | A join is tainted exactly when one side is |
| Lineage.JoinAllIsLub | packages/shared-types/src/lineage.ts:86-88 | The fold over a list is the least label covering all of it |
| Lineage.JoinAllIgnoresOrder | packages/shared-types/src/lineage.ts:86-88 | Lists with the same members fold to the same label, whatever the order and repetition |
| Labels.SessionLabelStore.Get | apps/broker/src/services/labels.ts:41-43 | Untracked sessions are BOTTOM |
| Labels.SessionLabelStore.Join | apps/broker/src/services/labels.ts:53-69 | The session's entry after a join; all other sessions unchanged |
| Labels.SessionLabelStore.JoinElements | apps/broker/src/services/labels.ts:77-98 | The session's entry after a batch, ancestors deduplicated in order; all other sessions unchanged |
| Labels.Accumulate | apps/broker/src/services/labels.ts:82-89 | The loop folds every element in and collects the non-empty hashes of the untrusted ones |
| Labels.SessionLabelStore.Ancestors | apps/broker/src/services/labels.ts:101-103 | The ancestors of a session, none when untracked |
| Labels.SessionLabelStore.IsTainted | apps/broker/src/services/labels.ts:106-108 | Whether the session's label has an untrusted origin |
| Labels.LabelIsJoinOfGiven | apps/broker/src/services/labels.ts:53-98 | Main result. After any run of `join` and `joinElements`, in any order and batching, a session's label is the join of exactly what that session was given |
| Labels.LabelIsLeast | apps/broker/src/services/labels.ts:53-98 | A label covers everything the session was given exactly when it covers the stored label |
| Labels.TaintedExactly | apps/broker/src/services/labels.ts:106-108 | A session is tainted exactly when some call on it carried an untrusted origin |
| Labels.FirstTaintStays | apps/broker/src/services/labels.ts:58-66 | taintedBy and taintedAt are those of the first tainting call, for the rest of the run |
| Labels.AncestorsAreHashesGiven | apps/broker/src/services/labels.ts:82-96 | The ancestors are exactly the content hashes of untrusted elements given to `joinElements`, each once, in order of first mention |
| Labels.AncestorsExactly | apps/broker/src/services/labels.ts:82-96 | After any run a hash is an ancestor of a session exactly when some call gave that session a rag, MCP or external element asserting it; no hash is there twice, and a later call only adds behind those there |
| Labels.HashesInOrder | apps/broker/src/services/labels.ts:82-89 | A batch leaves its hashes in the order of its elements |
| Labels.HashesTaint | apps/broker/src/services/labels.ts:82-96 | A session that registered an untrusted hash is tainted, so its ancestors are recorded |
| Policy.PolicyEngine.ResolveRole | packages/policy-engine/src/engine.ts:146-158 | The loaded bundle alone decides, and the default matrix only when none is loaded |
| Policy.PolicyEngine.Evaluate | packages/policy-engine/src/engine.ts:29-140 | The decision equals the declarative judgement of the five predicates, with the reason of each failure |
| Policy.CheckAll | packages/policy-engine/src/engine.ts:30-112 | All five results are recorded in order, none skipped after a failure |
| Policy.AllowedExactly | packages/policy-engine/src/engine.ts:29-140 | Allowed exactly when the role covers the operation, the intent is permitted, a tainted session does not reach outward and the classification is one of the four; exactly then all five results passed |
| Policy.AllowedGrants | packages/policy-engine/src/engine.ts:127-143 | What an allowed decision grants: the profile asked for or else the role's, dual control exactly where the role asks for it, attestation exactly for the two upper classifications, and modes B and C exactly below classified-adjacent |
| Policy.DenialNamesFirst | packages/policy-engine/src/engine.ts:114-125 | A denial reports the first failure's code and reason in evaluation order, under the strict profile |
| Policy.TaintAlwaysRecorded | packages/policy-engine/src/engine.ts:82-98 | Whatever else fails, the decision carries the taint result, right, with the ancestors whenever the session is tainted |
| Policy.OutwardOperations | packages/shared-types/src/intent.ts:25-35 | export and escalate are permitted for `export.data` and `admin.control` respectively, and for nothing else |
| Policy.IntentServes | packages/shared-types/src/intent.ts:25-35 | The table of intents read the other way: the operations each intent is permitted for, and no others |
| Policy.RouteServes | packages/openclaw-adapter/src/adapter.ts:40-60 | Writes are served by the write method and nothing else is; code and control by the restricted one, tools and nodes by their own, reads and exports by the read |
| Policy.DefaultCovers | packages/policy-engine/src/default-roles.ts:12-60 | The default matrix read the other way: the roles that cover each operation, and no others |
| Policy.DefaultGrants | packages/policy-engine/src/default-roles.ts:12-60 | The strict profile goes to the roles that reach nodes, the outside or control, the standard one to the others; dual control to exactly what admins and node admins do |
| Policy.GateExactly | packages/openclaw-adapter/src/adapter.ts:31-38 | The gate is the documented one (restricted operations under strict or scif only) exactly when it is not a strict-only operation under the relaxed profile, which it forwards |
| Policy.DefaultRolesPassGate | packages/policy-engine/src/default-roles.ts:12-60 | Under the default matrix the adapter never refuses what the policy allowed |
| Policy.DefaultOutwardRoles | packages/policy-engine/src/default-roles.ts:12-60 | Under the default matrix an allowed outward intent is an egress agent's export or an admin's escalation under dual control, in an untainted session |
| Bindings.MockBindings.Attest | packages/nie-bindings/src/mock.ts:45-90 | Admission succeeds exactly when the package meets the floor and neither subject nor device is revoked; what it stores |
| Bindings.MockBindings.VerifyToken | packages/nie-bindings/src/mock.ts:92-106 | Missing, expired, revoked session, else valid, in that order |
| Bindings.MockBindings.DeriveScopedCapability | packages/nie-bindings/src/mock.ts:108-129 | The derived token, or the first of the errors, with the subset loop |
| Bindings.MockBindings.Revoke | packages/nie-bindings/src/mock.ts:153-170 | The id is remembered and exactly the tokens it covers are dropped |
| Bindings.MockBindings.ConsumeNonce | packages/nie-bindings/src/mock.ts:172-183 | First use exactly when the session has not seen the nonce, which it then has |
| Bindings.DeriveNarrows | packages/nie-bindings/src/mock.ts:108-129 | A child exists exactly for an active unexpired parent, a positive ttl and a subset of its operations; it has these operations and the parent's bearer and role, and expires at the lesser of the parent's expiry and ttlSeconds seconds from now: at most both, and equal to one |
| Bindings.DeriveRefuses | packages/nie-bindings/src/mock.ts:108-120 | When there is no child, which of the three errors it is: no active parent, nothing left of its life or of the ttl, an operation it does not have |
| Bindings.AdmissionExactly | packages/nie-bindings/src/mock.ts:45-57 | Admission is refused exactly for a package under eight units or of the browser-pivot kind, a revoked subject or a revoked device |
| Bindings.AdmittedLives | packages/nie-bindings/src/mock.ts:59-73 | An admitted token verifies for fifteen minutes from its admission, and not later |
| Bindings.DescendantsNarrow | packages/nie-bindings/src/mock.ts:108-129 | Main result. Along any number of derivations, operations and expiry lie within every ancestor's, with the same session, subject, device and role |
| Bindings.VerifiesExactly | packages/nie-bindings/src/mock.ts:92-106 | In every reachable state a token verifies exactly when it was issued, has not expired and no revocation covers its subject, session or device |
| Bindings.RefusalSays | packages/nie-bindings/src/mock.ts:92-96 | A refused token is told that it expired exactly when it is active and past its time, and otherwise that it was revoked |
| Bindings.FirstUseExactly | packages/nie-bindings/src/mock.ts:172-183 | Over any run, a nonce is a first use exactly when it has been none in its session before |
| Bindings.VerifiedIsFree | packages/nie-bindings/src/mock.ts:92-106 | When a token verifies, no revocation of its subject, session or device has been made |
| Bindings.RevocationIsPermanent | packages/nie-bindings/src/mock.ts:153-170 | Main result. After a subject, session or device is revoked, no token of it, derived earlier or admitted later, ever verifies again |
| Bindings.FirstUsesDiffer | packages/nie-bindings/src/mock.ts:172-183 | Over any run no (session, nonce) is a first use twice |
| Invoke.InvokeRoute.Write | apps/broker/src/services/providence.ts:52-63 | The entry handed to the log, its metadata written out as the route gives it with the stamp or the device label merged in, and the log's answer |
| Invoke.DeviceRecorded | apps/broker/src/services/providence.ts:56-60 | A device is recorded once: as the fingerprint when it is 64 lowercase hex, else as device_label with an empty fingerprint |
| Invoke.StampedExactly | apps/broker/src/services/providence.ts:24-40 | The transport's name, and its version where it reports one, are in the metadata of forwarded operations and of no other record: no route's own metadata uses either key |
| Invoke.PredicatesListed | apps/broker/src/routes/invoke.ts:188-201 | The metadata of a policy denial and of a forwarded operation list every predicate in order: its name, whether it passed, reason and code exactly when it failed, ancestors exactly when it names any; the stamp and the device label hide none of it |
| Invoke.ForwardShown | apps/broker/src/routes/invoke.ts:281-288 | The metadata of a forwarded operation hold the profile, the modes and the binding hash it was forwarded under |
| Invoke.DigestedExactly | apps/broker/src/services/providence.ts:66-68 | The broker can digest exactly the envelopes that `jcs` accepts |
| Notes.MetadataEncodesExactly | apps/broker/src/services/providence.ts:52-63 | A record's metadata encode exactly when what others supplied of them does, kind of note by kind: declared intents, error messages, manifests, denial reasons and ancestors, the transport's texts on forwarded operations, the device's text; no member hides another |
| Notes.RecordEncodesExactly | packages/providence-log/src/log.ts:175-200 | A route's record passes the schema and encodes exactly when its texts are well-formed and in range, its session and digest are 64 hex or empty, position and time are safe integers, and its metadata encode and fit |
| Notes.InvokeNoteEncodes | apps/broker/src/routes/invoke.ts:272-289 | For the record of a success that comes down to the token's texts, the transport's, the target hash, and the predicates' ancestors |
| Notes.BlockedNoteEncodes | apps/broker/src/routes/invoke.ts:253-270 | For that of a failure, to the token's texts, the transport's own error, and its name and version when it was called |
| Notes.AncestorsEncode | apps/broker/src/services/labels.ts:101-103 | A session's ancestors encode exactly when every untrusted hash it registered is well-formed |
| Invoke.InvokeRoute.OnToken | apps/broker/src/routes/invoke.ts:43-64 | From the token's verification to the nonce: answer and record, or on |
| Invoke.InvokeRoute.OnNonce | apps/broker/src/routes/invoke.ts:66-91 | From the nonce to the envelope: a replay is answered and recorded, or on |
| Invoke.InvokeRoute.Decide | apps/broker/src/routes/invoke.ts:111-224 | Envelope result, intent, manifest, policy over the session's label as it is now, dual control: the first that refuses ends the request |
| Invoke.InvokeRoute.OnEnvelope | apps/broker/src/routes/invoke.ts:111-240 | From the envelope to the transport call without an await, which transport method is called, and the one record when it is not |
| Invoke.InvokeRoute.OnAdapter | apps/broker/src/routes/invoke.ts:253-296 | From the adapter's answer to the response: tool_block, or the digest of the envelope, which can throw, and then the invoke record and 200 |
| Invoke.InvokeRoute.Conclude | apps/broker/src/routes/invoke.ts:34-40 | A request gets the route's own answer only when its record was appended |
| Context.ContextRoute.OnToken | apps/broker/src/routes/context.ts:24-83 | From the token's verification to the answer: manifest and label first, then the record; the label stays raised when the append throws; an invalid token changes nothing |
| Context.ContextRoute.Register | apps/broker/src/routes/context.ts:58-82 | Manifest, then label, then record; neither of the first two is taken back when the append throws |
| Envelopes.DigestsAgree | packages/nie-bindings/src/mock.ts:144-151 | `readableEnvelopeDigest` of a sealed envelope equals `envelopeDigest` of the opened one wherever `jcs` accepts it, and the broker's digest exists exactly there |
| Envelopes.DigestFixesEnvelope | apps/broker/src/services/providence.ts:66-68 | Equal envelope digests mean the same envelope or a collision on its canonical bytes |
| Broker.TaintGate | apps/broker/src/routes/invoke.ts:166-240 | Main result. For every interleaving of invokes and context registrations, whenever the transport is called with intent export or escalate, so for every `export.data` and `admin.control`, no element that session had registered by then has an untrusted origin |
| Broker.CallServed | packages/openclaw-adapter/src/adapter.ts:40-60 | Every transport call of every run is of the method that serves its operation, writes alone being written, and its envelope had not expired by the clock it was checked by |
| Broker.CallMoment | apps/broker/src/routes/invoke.ts:226-240 | Only the stretch after the envelope calls the transport, once, and the call remembers how many registrations had been labelled by then |
| Broker.NonceAtMostOnce | apps/broker/src/routes/invoke.ts:66-91 | Main result. At most one transport call per (session, nonce), over all interleavings, late work behind expired deadlines and tokens derived within the session |
| Broker.AnsweredIsRecordedOnce | apps/broker/src/routes/invoke.ts:30-296 | Main result. Every answered invoke has exactly one committed record with its correlation id, saying what its note says; a pending one has none; one whose append did not return, answered 500 by the framework, has its one record when the rename took effect and else none; one that threw before has none |
| Broker.CallRecordedOnce | apps/broker/src/routes/invoke.ts:234-296 | Main result. Every transport call whose request has ended, whatever the reply, has exactly one committed record, unless the operation succeeded with an envelope that does not encode, or its record does not encode, or the transport threw, or the log refused or failed before its rename; then it has none. The digest's error ends a request exactly in the first case |
| Broker.DecisionRecordedExactly | apps/broker/src/routes/invoke.ts:30-296 | Main result. Every decision of an invoke, under any I/O errors, leaves its one record if and only if the log accepts it and the rename takes effect, and is answered if and only if the append then returns; a record that is not accepted leaves the log as it was |
| Broker.DecisionEncodesExactly | apps/broker/src/routes/invoke.ts:30-296 | Over a log that serves, every decision is recorded and answered exactly when its note's texts, the position and the time encode; otherwise its record is rejected, there is none, and the log is as it was |
| Broker.CallRecordedExactly | apps/broker/src/routes/invoke.ts:253-296 | Main result. The same for a transport call that is answered, in terms of inputs: the envelope encodes, the token's, the transport's and the error's texts are well-formed and in range, and so is every untrusted hash the session had registered by the call |
| Broker.UndigestibleIsLost | apps/broker/src/routes/invoke.ts:272-288 | Whenever a request awaits the transport with an envelope that does not encode and the transport succeeds, the handler throws, and the log holds no record of the forwarded operation |
| Unrecorded.ForwardedWithoutRecord | apps/broker/src/routes/invoke.ts:272-288 | A whole run at that input, over any log: a viewer's token, every layer passed, an envelope that holds the fields read off it and the number 0.5, the transport called and successful, no record |
| Unrecorded.ForwardedAndRejected | apps/broker/src/routes/context.ts:8-16 | A second run, over a log that serves and without a fault: a session registers one untrusted element whose 64 units are lone surrogates, which has its record when its own note encodes; then its operation passes every layer, its envelope encodes, the transport is called and succeeds, the record is rejected, and the log goes on serving |
| Broker.AnswerSurvives | apps/broker/src/routes/invoke.ts:272-296 | Main result. Whatever happens to the log afterwards, a directory a restart accepts has the answered request's line at its position |
| Broker.SuccessIsJustified | apps/broker/src/routes/invoke.ts:272-296 | Main result. A 200 means the token was issued and verified unexpired and unrevoked, the nonce was this request's first use, the envelope had not expired when it was checked, target and scope hashes are bound, the intent is permitted, the manifest is zero or some registration's, all five predicates passed, dual control was met, the profile gate passed and the transport was called; the request's one committed record says so: an invoke event with the envelope's digest, whose metadata list the five predicates by name, each passed, with the profile, modes and binding hash |
| Broker.DenialIsExplained | apps/broker/src/routes/invoke.ts:188-201 | A policy denial's one committed record lists all five predicates in order, and its reason code is that of the first that failed |
| Evidence.ReplyIsTrue | apps/broker/src/routes/invoke.ts:30-296 | Main result. Over every run, the one record of an answered request is true of it: refused tokens had expired or been revoked, replays lost the race for their nonce, rejected envelopes were stale or did not open, mismatches and drifts are there, the first predicate listed as failed gives the code, a tool_block is the adapter's answer or a deadline that passed while the transport was out, an invoke a success; it names the session, subject and device of the token verified, fields and metadata under their documented names, and the status is the one it calls for |
| Evidence.StaleIsRefused | apps/broker/src/routes/invoke.ts:111-132 | Main result. An envelope that opens and had expired by the clock it was checked by never leads to a transport call; its request is answered 403 if at all, and its record is envelope_rejected with reason class expired, or says that the check missed its deadline |
| Evidence.PassesExactly | apps/broker/src/routes/invoke.ts:111-240 | Main result. In every reachable state, a checked request goes on to the adapter if and only if its envelope is unexpired and for this target and operation, the intent is permitted, the manifest is zero or a registration's, the token's role under the policy loaded now covers the operation, the classification is known, an outward intent's session took in nothing from outside, and no signature is lacking; it is answered 202 exactly when only the signature lacks, and 403 otherwise |
| Replies.GrantRests | apps/broker/src/routes/invoke.ts:172-240 | What was let through to the adapter rests on a token that verified, an envelope sound by the clock it was checked by, and a role, of the bundle then loaded or else of the default matrix, that covers the operation and gives the profile, the modes and the dual control |
| Replies.CheckedExactly | packages/tstl-envelope/src/envelope.ts:56-91 | The envelope check gives the first of expiry, target and operation that fails, the envelope itself when all hold, and nothing else |
| Evidence.RegistrationTells | apps/broker/src/routes/context.ts:40-82 | In every reachable state a registration with a session makes its manifest known, counts its elements against its session alone, and its record shows the join of everything that session was given, this registration included, and whether anything of it is from outside; without a session it registers nothing and is recorded as denied |
| Broker.RegArrivesKeeps | apps/broker/src/routes/context.ts:46-80 | A registration adds its manifest, raises its session's label and writes its record in one stretch, and keeps the broker's invariant even when the append throws after the label is raised |
| Broker.NonceWorksKeeps | apps/broker/src/lib/deadline.ts:27-38 | Work behind a deadline may finish in any later stage, also after the answer, without breaking the invariant |

## Left out

- Cryptography: SHA-256, Ed25519, ML-DSA-65, TPM checkpoints and key ids; a signature is bytes that arrive or fail.
- Encoding.LineRoundTrip: reading a line is the inverse of the compact JSON the writer prints, with safe integers and no repeated key; other spellings that `JSON.parse` accepts are refused.
- Unicode.Utf8Decodes: each malformed byte decodes to its own U+FFFD, where a decoder may replace several at once; only bytes no writer produced differ.
- ChainFile.SplitJoin: lines are split on bytes, where the source sometimes splits decoded text; the two agree because 0x0a is never part of a longer UTF-8 sequence.
- Log.ProvidenceLog.Append: the entry is given after zod's parsing and `dropUndefined`; the reordering of payload members by zod does not show because canonical JSON ignores it; the earlier-format chain reference on the first record, listeners other than the scheduler's, and the text of failure reasons are not modelled.
- Log.ProvidenceLog.constructor: requires a chain id the source accepts, where the source throws; creating directories is left out.
- Recovery.ExactRecovery: a file system that reorders directory operations, or that loses bytes after a successful fsync.
- Writers.SharedRecovery: instances in other processes whose sub-steps interleave within one append; an append is atomic towards other instances.
- Scheduler.StopAnchors: timers are ticks at any time; the interval and its parsing are left out.
- Labels.LabelIsJoinOfGiven: runs without `forget`, and the four known classifications only; ties between two unknown ones are not symmetric in the source.
- Policy.PolicyEngine.Evaluate: names inherited from JavaScript's object prototype, such as "constructor" or "__proto__", as roles or as classifications, which the source looks up in a plain object; the model knows seven default roles and four classifications. Bundle loading and its signature.
- Policy.AllowedExactly: a classification inherited from the object prototype passes the source's test when what it names has no length of 0, and not the model's.
- Bindings.RevocationIsPermanent: session ids and tokens are drawn new, where the source draws them at random; the subject id is an abstract function of the attestation package.
- Serving.PagesNeverWrong: lines are read by the compact JSON the writer prints, and `JSON.parse` skips white space; a range that starts at a blank of a line cut short could serve the record behind it with that blank in its text.
- Context.ContextRoute.OnToken: the manifest hash is a given text; the source hashes the elements in the locale's order of their ids.
- Broker.DecisionRecordedExactly: decisions of `/v1/invoke`; what a registration's stretch leaves and answers is in Context.ContextRoute.OnToken.
- Broker.AnsweredIsRecordedOnce: correlation ids are drawn new, where the source draws them at random.
- Invoke.InvokeRoute.Write: the report of the request's shape check and the deadlines' budgets are given values; an opened envelope whose intent, classification or hashes are not texts is not modelled.
- Broker.SuccessIsJustified: the envelope is opened by an abstract function of the sealed text, which gives the fields the broker reads and the whole value side by side.
- Broker.TaintGate: the label store is not restarted within a run; a restart of the broker starts with no labels, as the source does.
- Invoke.InvokeRoute.OnEnvelope: the awaits themselves; a method covers the code between two of them, and the interleaving is in `Broker`.
- Envelopes.DigestsAgree: base64.
- Routing, request parsing, rate limits, configuration, operator tokens, the gateway transport and its status mapping: plumbing around what is modelled.
- The MCP sanitizer, the FHE gate and inference route, cosign, admission and revocation routes: tables or single branches.
- Features that only documents describe: Guard check phases, shadow policy, cross-node revocation.
