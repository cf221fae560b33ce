# rldyour-clipboard: a verified model

rldyour-clipboard is a clipboard archive: a daemon that stores what is copied,
and clients that record into it, browse it and serve it back. This project
models its four connected parts in Dafny and proves what they promise.

**The archive as a concurrent protocol.** Rows live in the index, content lives
in files named by digest, and a separate later sweep deletes files. A commit
gives the index lock up in the middle. `Archive.dfy` models this as a step
machine: any number of actors (a draft, or one remove, clear, expire, pin or
startup pass), each with the rest of its program, one statement a step, with
every call able to fail and the process able to die between any two steps.
`ArchiveSafety.dfy`, `ArchiveSteps.dfy` and `ArchiveRuns.dfy` prove what holds
in every reachable state; `ArchiveBudget.dfy`, `ArchiveLeaks.dfy`,
`ArchiveTemps.dfy` and `ArchiveExample.dfy` add the budget, the leaks, the
temporaries and runs that end where those promises stop.

**The index.** `Tables.dfy` gives the four tables as values and one meaning to
every deletion (`Tables.Without`). `Index.dfy` is the class the daemon's index
is: fields reassigned by methods with the source's loops and running totals,
each proved against those values; the protocol's steps are those same
values. `Ages.dfy` states eviction and expiry order
without sorting anything, `Maintenance.dfy` the retention timer, `Paging.dfy`
and `ListFrame.dfy` lists, `Preview.dfy` the row text, `ListedRows.dfy` how those
bound every row, `Identity.dfy` what makes two copies the same entry.

**The byte stream.** `Wire.dfy` says what a stream of frames and payloads means.
`Reader.dfy`, `Blobs.dfy` and `Session.dfy` are the daemon's imperative reader,
store writer and session, over an input that yields any number of bytes a read;
`Conversation.dfy` draws the consequences. `PythonClient.dfy` and `JsClient.dfy`
are the two writers on the other side, `FrameReader.dfy` the extension's reader.

**Notification.** `Outbox.dfy` has the bounded queues and the shared socket,
`Feed.dfy` the events as a replica of the archive.

Conventions. A digest is its text; content and digest are related only where
content matters, by a hash function that is a parameter. An entry id is one more
than the largest in use, so ids may come back. `*` and `:|` in methods stand for
whatever the operating system, the peer or the disk decides. A flag such as
`sound`, `listening` or `roomy` says that one kind of failure does not happen;
without it that failure may come at any moment.

## What turned out not to hold

* **A refused insert strands its thumbnail.** Two representations with one mime
  make the insert fail on its primary key. The early return drops the
  thumbnail's lease and sweeps only the representations. `ArchiveExample` gives
  a run from a first start in which no call fails and a file is left that
  nothing will look at; `ArchiveLeaks.RefusedInsertLeaks` says exactly when it
  happens.
* **A lost reply to a commit strands its draft.** When the answer cannot be
  written, `Session::commit` returns before it discards the draft
  (`daemon/src/session.rs:502-506`): the leases go and nothing sweeps. That is
  harmless while rows name the content, and not when the entry was evicted in
  its own commit: `ArchiveExample.ALostReplyStrandsADraft` is such a run,
  `ArchiveLeaks.LostReplyLeaks` the exact condition. The same return skips the
  broadcasts; `Feed.LostReplyLosesEvents` says, from the tables before the
  request, exactly when a watcher is out of step after it.
* **Broadcasts may be heard in another order than the changes were made.** They
  follow the lock's release, so a removal can be announced before the recording
  of what it removes: `Feed.ARemovalOvertakes`. `Feed.AnnouncedInAnyOrder` and
  `Feed.RemovalOvertakes` give the exact conditions.
* The comment at `daemon/src/store/mod.rs:553-556`, that only a crash can leave a
  file no record points at, does not hold for these two. `ArchiveLeaks` counts
  every other run without a failed call as clean.
* **A temporary that cannot be removed stays.** The removal's error is ignored
  (`daemon/src/store/blobs.rs:190-195`, `299-306`). `ArchiveTemps` counts those
  files exactly and proves that there are no others.
* **A cursor that is removed hides rows.** `Index::list` then falls back to the
  id, which is "close enough for a deleted entry" by its own comment
  (`daemon/src/store/index.rs:230-235`); `Paging.RemovedCursor` gives the exact
  condition, `Paging.RemovedCursorHidesARow` an archive of two entries that
  breaks it.
* **A write that fails part way tears the extension's stream.** The promise chain
  goes on to the next call on the same connection.
  `JsClient.FailedWriteKeepsFraming` says which failures are harmless,
  `JsClient.ConnectionStaysFramed` that a run keeps the stream whole exactly when
  all of its failures were, `JsClient.TornLineSwallowsTheNext` what the others do.
* **A blob that ends early lets an event into its payload.** The socket lock is
  released with the unit unfinished, before the session ends:
  `Outbox.ConnectionStaysWhole`, `Outbox.EventInsideAPayload`.
* **The budget can be exceeded after a failed eviction or a crash right before
  one**, because insert and evict are two transactions: `ArchiveExample` has a
  run for each, `ArchiveBudget.FailedEvictionKeepsExcess` and
  `ArchiveBudget.CrashKeepsExcess` the exact conditions. The loop's other exit over budget,
  "everything left is pinned" (`daemon/src/store/index.rs:472-476`), is reached
  in no other run: `ArchiveBudget.ArchiveFitsBudget`.

## Model

| member | source | states |
|---|---|---|
| Archive.Exec | daemon/src/store/mod.rs:199-286 | one statement of any actor, success and failure |
| Archive.Enabled | daemon/src/store/blobs.rs:169-186 | when a statement may run and what its outcome may be |
| Archive.Crash | daemon/src/server.rs:14-31 | the process dies anywhere and the daemon starts with reconciliation |
| Archive.FailedCommitCode | daemon/src/store/mod.rs:255-263 | an early return from the second lock hold drops the thumbnail and sweeps only the draft |
| Archive.FinishedCommitCode | daemon/src/store/mod.rs:264-278 | the tail of a commit: sweep what eviction orphaned, then the thumbnail, and answer |
| ArchiveSteps.ReplyOk | daemon/src/session.rs:497-538 | the answer decides whether the draft is discarded or only its leases go, and the archive stands either way |
| Archive.DiscardCode | daemon/src/store/mod.rs:535-539 | leases go first, then the same digests are swept |
| ArchiveSteps.Frame | daemon/src/store/blobs.rs:45-61 | no step of one actor takes anything another relies on: rows under the lock, leased files |
| ArchiveSteps.RunKeepsInv | daemon/src/store/mod.rs:199-286 | every statement of every actor, failing or not, keeps the archive's invariant |
| ArchiveRuns.NextKeepsInv | daemon/src/server.rs:14-31 | so does every decision of a session and every crash |
| ArchiveRuns.NoEntryLosesItsFile | daemon/src/store/mod.rs:373-393 | in every reachable state each digest a part row or thumbnail names has its file, so opening a located part finds it |
| ArchiveRuns.NoDraftLosesItsFile | daemon/src/store/blobs.rs:45-61 | content a draft or a running commit was told it holds is on the disk until it gives it up |
| ArchiveRuns.PinsAreDurable | daemon/src/store/mod.rs:466-482 | every blob and thumbnail of a pinned entry has been synced since its file was last published |
| ArchiveRuns.IndexIsConsistent | daemon/src/store/index.rs:63-104 | reference counts, sizes, ownership and uniqueness hold in every reachable state |
| ArchiveRuns.NoSecretIsArchived | daemon/src/store/mod.rs:208-213 | no archived part carries a sensitive mime, whatever clients send |
| ArchiveRuns.EntriesAreDistinct | daemon/src/store/mod.rs:634-660 | two live entries never hold the same representations |
| ArchiveRuns.CopiesAreRecognised | daemon/src/store/mod.rs:232-247 | a commit is treated as a copy exactly when some entry holds the draft's representations |
| ArchiveRuns.InsertNeverCollides | daemon/src/store/mod.rs:253-258 | though the lock was given up in between, an insert never meets an identity already there |
| ArchiveRuns.OneLockHolder | daemon/src/store/mod.rs:227-253 | at most one actor is between taking and releasing the index lock |
| ArchiveBudget.EvictionFits | daemon/src/store/index.rs:451-488 | after any eviction the blobs fit exactly when the pinned ones fit alone |
| ArchiveBudget.ArchiveFitsBudget | daemon/src/store/mod.rs:253-264 | whenever the lock is free the blob bytes are within the budget, pins included, in any interleaving |
| ArchiveBudget.FailedEvictionKeepsExcess | daemon/src/store/mod.rs:264 | the step fits exactly when the eviction worked or nothing needed evicting |
| ArchiveBudget.CrashKeepsExcess | daemon/src/store/mod.rs:258-264 | after a crash the archive fits exactly when its tables did, and they did unless the crash fell between insert and eviction |
| ArchiveExample.AFailedEvictionExceedsTheBudget | daemon/src/store/mod.rs:264 | a reachable state over budget with the lock free |
| ArchiveExample.ACrashBeforeEvictionExceedsTheBudget | daemon/src/store/mod.rs:258-264 | a reachable start of the daemon over budget |
| ArchiveLeaks.CleanRunKeeps | daemon/src/store/mod.rs:518-539 | every statement whose call succeeds keeps each file named, leased or listed in a pending sweep |
| ArchiveLeaks.EveryFileIsAccountedFor | daemon/src/store/mod.rs:512-533 | from any start after any crash, in any interleaving of calls that succeed and commit replies that are heard, no file is forgotten |
| ArchiveLeaks.QuietArchiveIsExact | daemon/src/store/mod.rs:557-587 | in such a run, once every program has ended, the files are the blob rows and what open drafts hold; a restart recovers what a crash or a lost reply stranded |
| ArchiveLeaks.LostReplyLeaks | daemon/src/session.rs:502-506 | the exact condition under which a lost reply leaves a file nothing accounts for |
| ArchiveLeaks.UnsweptDropLeaks | daemon/src/session.rs:502-506 | the same for one lease going unswept, whatever others did in between |
| ArchiveExample.ALostReplyStrandsADraft | daemon/src/session.rs:497-506 | a reachable state with nothing left to do and a stranded file, by a run in which only the reply is lost |
| ArchiveLeaks.FailedSweeps | daemon/src/store/mod.rs:255-263 | a failed commit sweeps all it drops exactly when it has no thumbnail or the thumbnail is one of its representations |
| ArchiveLeaks.RefusedInsertLeaks | daemon/src/store/mod.rs:255-263 | the exact condition under which a refused insert leaves a file nothing accounts for |
| ArchiveExample.ARefusedInsertStrandsItsThumbnail | daemon/src/store/mod.rs:255-263 | a reachable state, by a run in which no call fails, with a stranded file |
| ArchiveTemps.TemporariesAreAccountedFor | daemon/src/store/blobs.rs:188-195 | in every reachable state after startup: one temporary for each write under way, and the strays |
| ArchiveTemps.TemporariesAreGone | daemon/src/store/blobs.rs:188-195 | provided removing a temporary succeeds, there is one exactly while a write is under way, other failures and crashes included |
| Tables.Without | daemon/src/store/index.rs:414-445 | the tables recomputed from the rows that survive a deletion |
| Tables.Inserted | daemon/src/store/index.rs:129-188 | the tables after a new entry |
| TableLemmas.InsertedKeepsValid | daemon/src/store/index.rs:129-188 | an insert keeps counts with multiplicity, sizes, ownership and uniqueness |
| TableLemmas.WithoutKeepsValid | daemon/src/store/index.rs:414-445 | so does any deletion |
| TableLemmas.WithoutTwice | daemon/src/store/index.rs:493-515 | deleting in two statements is deleting at once |
| TableLemmas.NextIdIsFresh | daemon/src/store/index.rs:73 | one above the largest id in use belongs to no row, index or body |
| TableLemmas.InsertUndone | daemon/src/store/index.rs:414-426 | deleting the entry just inserted gives the tables before, references and indexed text included |
| Index.Index.Touch | daemon/src/store/index.rs:111-126 | a known identity's timestamp moves and nothing else does |
| Index.Index.Insert | daemon/src/store/index.rs:129-188 | all rows or none; it succeeds exactly when identity and mimes are new |
| Index.Index.InsertParts | daemon/src/store/index.rs:154-170 | the part loop succeeds exactly when no mime repeats, and adds one reference for each part |
| Index.Index.ReleaseEntry | daemon/src/store/index.rs:571-616 | releasing references one at a time leaves the blob table of the surviving rows; orphans and freed bytes are exactly what went |
| Index.ReleaseMeans | daemon/src/store/index.rs:571-616 | the same for the release as a function, however parts, thumbnail and other entries share digests |
| Index.ReleaseAccounts | daemon/src/store/index.rs:571-616 | what an entry releases is what the surviving rows no longer count, with multiplicity |
| Index.Index.Remove | daemon/src/store/index.rs:414-426 | one entry and what only it named |
| Index.Index.Clear | daemon/src/store/index.rs:429-445 | exactly the unpinned entries |
| Index.Index.EvictTo | daemon/src/store/index.rs:451-488 | the shortest oldest-first run of unpinned entries that reaches the budget, or all of them |
| Index.Index.EvictFrom | daemon/src/store/index.rs:458-486 | the running total is the sum of the blob table on every turn; unpinned count ends the loop |
| Index.OneMoreVictim | daemon/src/store/index.rs:461-485 | each turn takes the oldest unpinned entry left while still over budget |
| Index.Index.SelectOldest | daemon/src/store/index.rs:463-470 | the first unpinned row in (at, id) order |
| Index.Index.Bytes | daemon/src/store/index.rs:539-544 | the sum over the blob table |
| Index.Index.ExpireBefore | daemon/src/store/index.rs:493-515 | the oldest expired rows of one batch, or all of them |
| Index.Index.SetPinned | daemon/src/store/index.rs:388-403 | one flag, and whether there was a row |
| Ages.EvictionUnique | daemon/src/store/index.rs:463-470 | the eviction specification has one answer |
| Ages.OldestFirstUnique | daemon/src/store/index.rs:499-504 | an oldest-first list is fixed by its length |
| Ages.ExpiryAppend | daemon/src/store/index.rs:490-515 | a batch of m after a batch of n is one batch of n + m |
| Ages.ExpiryUnique | daemon/src/store/index.rs:493-515 | the expiry specification has one answer |
| Maintenance.Expire | daemon/src/maintenance.rs:10-33 | one wake removes the first 1024 expired entries or all of them, never a pin or a row at the cutoff; a deferred wake removes a beginning of the same order |
| Maintenance.WakesAddUp | daemon/src/maintenance.rs:13-14 | any number of wakes is one pass over all their rows |
| Maintenance.BacklogDrains | daemon/src/maintenance.rs:13-14 | n expired entries are gone after ceil(n / 1024) wakes and not sooner |
| Identity.Encoded | daemon/src/store/mod.rs:640-660 | the text the identity hash is taken over |
| Identity.Compute | daemon/src/store/mod.rs:640-660 | the loop that collects, sorts and joins the pairs computes that text |
| Identity.EncodedIdentifies | daemon/src/store/mod.rs:634-660 | two drafts have the same text exactly when they hold the same multiset of (mime, digest), in any order |
| Identity.JoinedInjective | daemon/src/store/mod.rs:649-653 | the joined text takes apart again |
| Wire.NextFrame | daemon/src/session.rs:605-644 | the first line of a stream, with the 64 KiB limit |
| Wire.Hear | daemon/src/session.rs:103-119 | what a byte stream says: requests with their payloads, and how it ends |
| Wire.HearChunks | daemon/src/session.rs:426-466 | the chunks of a part up to its terminator, and what follows |
| Wire.RoundTrip | daemon/src/session.rs:4-12 | any sequence of requests, any payloads, is heard as it was spoken, and what follows is heard afresh |
| Wire.ChunksRoundTrip | daemon/src/session.rs:405-478 | the same for a chunked part |
| Wire.CutConversation | daemon/src/session.rs:610-614 | a stream cut at any byte is heard as a beginning of the conversation, plus at most one request whose payload is visibly short |
| Reader.ReadFrame | daemon/src/session.rs:605-644 | for any division into buffer fills, the result of splitting the whole stream at its first newline, and the position behind it |
| Reader.Drain | daemon/src/session.rs:592-596 | exactly that many bytes go, or all there are |
| Reader.Counted.Read | daemon/src/session.rs:573-590 | how much was handed out is counted |
| Blobs.Writer.Absorb | daemon/src/store/blobs.rs:214-238 | copies and hashes exactly n bytes; failing, it took a prefix and no more than n |
| Blobs.Blobs.Finish | daemon/src/store/blobs.rs:247-296 | published under its own digest and leased; stored content is kept; a failed rename gives the lease back |
| Blobs.Blobs.OpenRead | daemon/src/store/blobs.rs:103-107 | what is served under a digest is content with that digest |
| Blobs.Blobs.Release | daemon/src/store/blobs.rs:50-61 | one lease goes, and the entry with the last |
| Blobs.Blobs.Remove | daemon/src/store/blobs.rs:169-186 | deletes exactly when unleased; gone already is no error |
| Session.Fits | daemon/src/session.rs:121-317 | what each request does to the drafts, and its one answer |
| Session.Session.CommitDraft | daemon/src/store/mod.rs:199-225 | an empty or secret draft makes no entry, one over the budget is refused, any other is recorded unless it repeats a mime or the archive fails |
| Session.Session.Accept | daemon/src/store/mod.rs:161-182 | checks mime and budget before reading; recorded means every declared byte was taken |
| Session.Session.WholePart | daemon/src/session.rs:376-403 | however the store fares, exactly the declared payload leaves the stream, and the outcome is the one the content deserves |
| Session.Session.TakeChunk | daemon/src/store/mod.rs:609-617 | one chunk goes whole, also when it fails or overruns the budget after being taken |
| Session.Session.ChunkedPart | daemon/src/session.rs:410-478 | reads to the terminator whatever happens; recorded content is the chunks joined |
| Session.Session.TakePart | daemon/src/session.rs:339-373 | a recorded part is appended to its draft; every other outcome leaves the drafts alone |
| Session.Session.Reply | daemon/src/session.rs:124-176 | every other request's effect on the drafts, and its answer; a fetch may break off when its file cannot be read |
| Session.Session.Turn | daemon/src/session.rs:103-119 | one frame performed as the stream says, or the end for the reason the stream gives |
| Session.Session.Run | daemon/src/session.rs:103-119 | for any stream, buffering and store outcomes, the requests performed are those the stream holds, one answer each; a lost or broken reply leaves a beginning of them |
| Conversation.WholeConversation | daemon/src/session.rs:4-12 | a stream of whole requests is performed as exactly those |
| Conversation.SessionStaysBounded | daemon/src/session.rs:136-148 | at most four drafts of eight valid parts within the budget, whatever the peer does |
| Conversation.DraftNumbersAreNew | daemon/src/session.rs:139-140 | a draft number is given out once a session |
| Conversation.AnswersAreInOrder | daemon/src/proto.rs:133-155 | one answer per request, in order, quoting its number |
| Conversation.DraftHoldsWhatWasAcknowledged | daemon/src/session.rs:354-372 | in any conversation an open draft holds exactly the parts acknowledged to it, whole and in order |
| Conversation.DraftHoldsWhatWasSent | daemon/src/session.rs:354-364 | begin and acknowledged parts leave a draft of exactly those contents in order |
| PythonClient.Client.Record | python/src/rldyour_clipboard/__init__.py:292-323 | what one recording says: all parts and a commit, or a beginning of them and an abort; a source that raises is never committed |
| PythonClient.Client.WholePart | python/src/rldyour_clipboard/__init__.py:325-338 | the bytes of a declared part |
| PythonClient.Client.ChunkedPart | python/src/rldyour_clipboard/__init__.py:340-365 | the bytes of a streamed part, empty pieces skipped, terminator always sent |
| PythonClient.SameBlobWholeOrPieced | daemon/src/store/blobs.rs:403-419 | the same content is the same blob, whole or in pieces |
| PythonClient.RecordIsHeard | python/src/rldyour_clipboard/__init__.py:137-141 | the bytes of a recording are heard by the daemon as that recording |
| PythonClient.RecordReachesTheDraft | python/src/rldyour_clipboard/__init__.py:292-323 | the draft a session commits holds exactly the offered contents, and the commit ends as those deserve |
| JsClient.Apply | extension/lib/client.js:139-192 | one step of the client: a call queued, a write, a chunk, a failure |
| JsClient.StepsStayFramed | extension/lib/client.js:155-177 | while no write fails the wire is whole requests and a beginning of one |
| JsClient.FailedWriteKeepsFraming | extension/lib/client.js:305-326 | a failed write is harmless exactly when none of its buffer went out and it was no terminator |
| JsClient.ConnectionStaysFramed | extension/lib/client.js:139-192 | over any run of interleaved calls, short writes and failures, what went out is whole requests and a beginning of one if and only if every failed write was harmless |
| JsClient.CallsNeverInterleave | extension/lib/client.js:285-329 | in such a run, whenever no call is writing, the daemon hears exactly the calls that were made |
| JsClient.TornLineSwallowsTheNext | extension/lib/client.js:139-153 | a torn line is read together with the next call's |
| FrameReader.FrameReader.NextObject | extension/lib/framing.js:31-59 | for any read sizes, the first line of what is left as an object, or the right error |
| FrameReader.FrameReader.Payload | extension/lib/framing.js:61-83 | exactly the declared bytes, buffered ones first, in memory or through a file |
| FrameReader.FrameReader.WriteOut | extension/lib/framing.js:93-103 | short writes add up to the whole |
| FrameReader.FrameReader.Dispatch | extension/lib/client.js:103-134 | what is handed on is what the stream says, failing exactly when it does not end at a boundary |
| FrameReader.UnitsAreUnderstood | daemon/src/outbox.rs:38-68 | answers, events and blobs the daemon writes are understood as written |
| Outbox.Watchers.Broadcast | daemon/src/outbox.rs:127-142 | every registered watcher is offered the event; those that cannot take it are cut off |
| Outbox.Watchers.Add | daemon/src/outbox.rs:98-126 | a new subscription starts at the next event |
| Outbox.Watchers.Work | daemon/src/outbox.rs:104-112 | one step of a worker |
| Outbox.SubscriberSeesASegment | daemon/src/outbox.rs:98-142 | in any interleaving delivered and queued events are the first ones since the subscription with no gap, all of them while it lives, and the queue holds at most 64 |
| Outbox.CutOffIsFinal | daemon/src/outbox.rs:136-139 | after an overflow nothing new is ever sent |
| Outbox.Watchers.Drop | daemon/src/outbox.rs:88-97 | a subscription that goes leaves every other watcher as it was |
| Outbox.ConnectionStaysWhole | daemon/src/outbox.rs:38-68 | over any interleaving of writers a connection carries whole units and a beginning of the next, if and only if none was given up after its first byte |
| Feed.Publisher.Commit | daemon/src/session.rs:497-538 | a commit changes the tables and sends events as `Mutates` says, its own eviction included |
| Feed.Publisher.Pin | daemon/src/session.rs:288-297 | so does a pin |
| Feed.Publisher.Remove | daemon/src/session.rs:299-307 | a removal |
| Feed.Publisher.Clear | daemon/src/session.rs:309-316 | a clear |
| Feed.Publisher.ExpireOld | daemon/src/maintenance.rs:16-21 | and expiry |
| Feed.Publisher.ServeAll | daemon/src/session.rs:288-316 | over any run of them, a client that held the listing before and folded every event holds the archive after |
| Feed.MutationFolds | daemon/src/session.rs:288-316 | each mutation's events turn a replica of the tables before into one of the tables after |
| Feed.FeedIsAReplica | daemon/src/outbox.rs:127-142 | over any run of commits, pins, removals, clears and expiry, from any point of it, the listing then with the events since is the archive now |
| Feed.WatcherHoldsTheArchive | daemon/src/outbox.rs:98-142 | so a watcher that is subscribed and up to date holds the archive, whatever its queue and worker did on the way |
| Feed.LostReplyLosesEvents | daemon/src/session.rs:502-506 | after a request that was never announced a watcher is in step if and only if the tables before it tell that it changes nothing a listing shows |
| Feed.OnlyItselfGoes | daemon/src/store/mod.rs:253-285 | a new entry is all its own eviction takes if and only if it does not fit, what else could go is younger, and without it the budget was kept or only pins are left |
| Feed.AnnouncedInAnyOrder | daemon/src/outbox.rs:127-142 | whatever order concurrent mutators are announced in, a client is in step if and only if the last word it heard on each id leaves what the last word in lock order leaves |
| Feed.RemovalOvertakes | daemon/src/session.rs:299-307 | a removal let in among the events of the recording it follows: in step if and only if it is heard behind all of them |
| Feed.ARemovalOvertakes | daemon/src/session.rs:299-307 | one text recorded and removed, heard the wrong way round, leaves a client an entry that is gone |
| Feed.AnnouncedFolds | daemon/src/store/mod.rs:264-285 | evictions first, then the entry only if kept, is the right order and nothing is missed |
| Feed.ReplicaCleared | daemon/src/session.rs:309-316 | dropping what is not pinned is what clearing does |
| Paging.Page | daemon/src/store/index.rs:219-302 | one page past a cursor, filtered, ordered and limited |
| Paging.WalkIsComplete | daemon/src/session.rs:184-206 | a walk that followed `more` to its end showed each surviving match once in listing order, for any limits, cuts and removals of other rows |
| Paging.FollowingEnds | daemon/src/session.rs:184-206 | no walk, finished or not, is longer than the archive it began with |
| Paging.PagesAreTheListing | daemon/src/store/index.rs:219-302 | with nothing removed the pages joined are the listing |
| Paging.CursorMoves | daemon/src/store/index.rs:230-247 | what is past the last row shown is what was left, past that row |
| Paging.RemovedCursor | daemon/src/store/index.rs:230-247 | after the cursor row is removed the next page is right if and only if every matching row with a smaller id comes after it in the listing, and every row that belongs on the page has a smaller id |
| Paging.RemovedCursorIsFine | daemon/src/store/index.rs:230-247 | so it is, at any limit, where ids agree with the order |
| Paging.RemovedCursorHides | daemon/src/store/index.rs:230-247 | removing the first row shown, when its id is the smallest, hides all others |
| Paging.RemovedCursorHidesARow | daemon/src/store/index.rs:230-247 | it happens in an archive of two entries, the older one copied again |
| ListFrame.Fits | daemon/src/session.rs:193-202 | the largest number of rows whose reckoning is within the frame |
| ListFrame.AllowanceCovers | daemon/src/session.rs:193 | the 128 bytes cover the envelope, so a trimmed list is never refused on the way out |
| ListFrame.RowIsSmall | daemon/src/proto.rs:157-171 | a stored row takes less than a tenth of a frame |
| ListFrame.TrimmedPageHasRows | daemon/src/session.rs:199-202 | so trimming leaves at least ten rows, or all |
| ListedRows.EveryPageMakesProgress | daemon/src/session.rs:189-206 | so in every archive such sessions filled a trimmed page keeps ten rows, or all |
| Preview.Preview | daemon/src/kind.rs:254-278 | the words with one space between them, cut at 160 characters |
| Preview.CollapsingKeepsWords | daemon/src/kind.rs:249-253 | every word is kept in order and nothing is left to collapse |

## Left out

- Real files, sockets, permissions, activation, path and link checks: a file is present or not, synced or not.
- SQLite, its journal and full-text engine, and JSON: transactions are atomic steps, search is an arbitrary predicate on rows, JSON is a codec with the stated round trip for the requests at hand, and in `ListFrame` a length.
- The identity's outer SHA-256 is dropped: an entry's identity is the text that is hashed. Content digests are an arbitrary function of the content.
- Image decoding, BMP transcoding and thumbnails as pictures: a thumbnail is an optional extra blob a commit may produce.
- `rank`, `classify`, `recordable` and the mime tables: look-ups; the order of an entry's mimes in a summary is the stored one.
- 64-bit widths of sizes and ids, and the saturating subtraction of freed bytes: sums are unbounded and never go below zero here; an id past the largest 64-bit value is not modelled.
- `Index::locate`, `locate_prefixed`, `thumb` and `stats` are single queries; what matters about them is `ArchiveRuns.NoEntryLosesItsFile`.
- Archive.Spawn: a session's drafts are independent actors, so the four-draft and eight-part limits, proved in `Conversation`, are not used there.
- Archive.Exec: power loss is not modelled; a crash keeps every finished file operation and transaction.
- ArchiveBudget.ArchiveFitsBudget: for runs in which no eviction fails and none is cut short by a crash; what those leave is in `FailedEvictionKeepsExcess` and `CrashKeepsExcess`.
- ArchiveLeaks.EveryFileIsAccountedFor: for runs after a start in which file and database calls succeed and replies to commits are heard. A failed call may leave a file until the next start; what a lost reply leaves is in `LostReplyLeaks`.
- ArchiveLeaks.QuietArchiveIsExact: for the same runs.
- ArchiveTemps.TemporariesAreGone: the scratch file of a transcoded fetch, in the same directory, is not among the temporaries.
- Session.Session.Run: a reply that cannot be written ends the session; what the archive did for that request is not undone. Socket read errors are taken as end of stream, timeouts are not modelled, and `greet` is not.
- Session.Fits: what list, fetch, thumb, pin, remove, clear and stats answer is only that they answer once, and which entry a commit reports is open; their effects are in the archive, paging and feed parts.
- Feed.Publisher.Commit: mutators run one at a time; what another order of their broadcasts does is in `Feed.AnnouncedInAnyOrder`. A mutation whose database call fails half way is not among them.
- ListedRows.EveryPageMakesProgress: for archives filled by sessions. Native capture, which names no source, is bounded only by what its backends offer. The numbers in a row are taken to be in the daemon's integer widths.
- Session.Session.Reply: the leases of a draft's parts are not given back when it is committed or aborted; that is `Archive.DiscardCode`.
- PythonClient.Client.Record: a send either writes everything or the connection is over. Reading answers is reduced to the verdict that arrives, and `fetch_to` is not modelled; the extension's reader is.
- JsClient.Apply: one connection after its handshake. The greeting is written outside the queue, so a call made before it is answered may interleave with it; reconnecting and giving up pending calls are not modelled.
- Maintenance.Expire: the pause between batches lets other actors run; that interleaving is in `Archive`, where one batch is one step.
- Native capture backends act as one more draft; user interface, restore, preferences, installers and the command line are not part of this model.
