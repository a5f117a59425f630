# Kocoro: verified models of its stateful cores

Dafny models of the parts of the repository where state is updated in many steps and a promise spans
the steps.  Each module follows one piece of source and proves what its comments and callers rely on.

| module | what it models |
|---|---|
| `RelaySpool` | the private directory of realtime usage reports and the file procedures over it: install without replacing, pending recovery, legacy migration, quarantine.  Every system call may fail and the process may stop at every one |
| `RelayProtocol` | the relay over that directory: callers of `Enqueue`, two workers, retry, `Close`, process exit and restart, interleaved; and the relay object whose methods take these steps |
| `RunArchive` | the live message slice of one agent run with its index-keyed metadata, replaced by compaction, and the archive and durable checkpoint that must survive it |
| `DesktopSession` | the warm realtime session of the desktop loop: connect attempts, rotation, retry, provider callbacks, start and end of calls, each locked region one step |
| `WarmMint` | the one-shot cache of client secrets with its background mint |
| `ComputerUse` | the four flags that decide who owns the desktop within a turn, and the outcome type they trust |
| `ToolCompression` | tiered compression of old tool results |
| `ReplyPlan` | the reply target and the ids still to be acknowledged, as follow-ups supersede turns |
| `NudgeWindow` | the pruned rolling window of nudges |
| `LlmDispatch` | the nested retry loops around the provider |
| `FileRestore` | files re-read after a compaction: clipping, byte budget, header and its parser, choice of recent reads |
| `DeferredTools` | deferred tool schemas: advertised list, admission gate, family expansion, `LOADED` header |
| `PrefixTables` | the sorted prefix tables behind the output caps and context windows |
| `JsonEncoding` | how long a raw value and a string become when they are encoded into an enclosing object, that they still say the same, and how deep a value nests |
| `Wrappers` | the optional value the other modules share |
| `Strings` | prefix, containment, white space, decimal numbers, split and join |

Objects of the source are classes here, or, where a value passes through several functions, datatypes that
methods take and return; loops stay loops.  Pure functions state what a step does, and lemmas state what every
sequence of steps keeps.  Concurrent parties are interleaved steps of a state machine.

What happens outside is a parameter, never an assumption about its behaviour: failures of system calls and the
process exit are oracles in `Spool`, provider replies are `LlmDispatch.World`, reports of executed calls are
`ComputerUse.Response`, summaries are `ToolCompression.Pass`, the disk is `FileRestore.World`.

## Where the code does not do what is promised

- `Enqueue` bounds the body it is given, not the envelope it writes (cmd/realtime_usage_relay.go:111, 428-431).
  The file adds the principal and one level of nesting, and a body that was not encoded can grow.
  `StoredAcrossRestart` is the run, and `SurvivesExitIffReadable` the statement for any run: a stored report is
  there after a restart if and only if it is readable.  `ReadableIff` and, for bodies that come from an encoder as
  the only caller's do (internal/koe/realtime.go:828-837), `EncodedReadableIff` say which are.  For that caller the
  principal decides, and `LongPrincipalIsUnreadable` is the input; `RawMarksAreUnreadable` and
  `DeepestBodyIsUnreadable` need another caller.
- A read error on an existing record sets a valid record aside (cmd/realtime_usage_relay.go:304-314, 538-542).
  `TargetIsValid` and `LoadEntry` say when: if and only if the read fails and the rename succeeds, and the
  identity is lost if and only if no other name has it (`SetAsideLosesSoleCopy`).  Each write and each load records
  in `taken` the identities of which it took a record away, and in `skipped` those it passed over and left there,
  also because their mode could not be set (lines 533-535).  A write takes at most a record of its own identity, a
  load only what it found, and neither any unless a read failed in it, or a readable pending file had been set
  aside before a load.  The delivery results hold in every run with exactly these exceptions;
  `AFailedReadTakesTheOnlyRecord` is a directory and `AcceptedCanBeTakenAway` a run where they are real.
- A quarantined pending file keeps the scanned prefix, and the next temporary file may draw the same random part,
  so one pending file can be renamed over another (cmd/realtime_usage_relay.go:588, 599).  `AsideLosesIff` says
  exactly when that loses an identity, `ATagDrawnTwiceLosesARecord` is a run in which it does, and where no
  readable file was ever set aside (`NoneMarked`, kept while reads work) it never does.
- The comment at internal/agent/loop.go:2344-2349 says the final reply's target is among the pending ids.
  That holds exactly when every follow-up batch that supersedes an answered turn carries a cloud id
  (`TargetIsPendingIff`); `AnIdlessFollowUpAnswersTwice` is a run where it fails and an id is answered twice.
- An assistant message that calls tools while its text reads like an executed call takes the text path of the
  compression and loses its tool-use blocks.  `IdsAreKeptIff` gives the exact condition; `AQuotedCallIsLost` is a
  message that quotes an executed call in full and loses its own once twenty newer messages hold results.
- The comment at internal/agent/filerestore.go:219-222 says clipping only undershoots the budget.  The clip
  marker and the header come on top.  `StaysWithinBudgetIff` says from the lengths of the files exactly when the
  total stays within it, `OneFileFitsIff` for one file, `CutFileOvershoots` is a family that never does, and
  `RestorationIsBounded` is the bound that always holds.
- A take of the secret cache reads the clock before it waits for the lock, so the age limit holds for the moment
  it asked.  `YoungIffStillFresh` says exactly when it also holds for the moment of the handout, and
  `AWaitingTakeGetsAnExpiredSecret` is a run where it does not.

## Model

| member | source | states |
|---|---|---|
| `RelaySpool.PendingIds` | cmd/realtime_usage_relay.go:581-604 | exactly the identities some pending file holds a readable record of |
| `RelaySpool.Spool.ReadFile` | cmd/realtime_usage_relay.go:504-511 | a read gives the stored content, or the file is missing, or it fails; never another content |
| `RelaySpool.Spool.Rival` | cmd/realtime_usage_relay.go:268-270 | another process may only have added its own valid record of the identity |
| `RelaySpool.Spool.Link` | cmd/realtime_usage_relay.go:268-277 | a link installs the source under a name that was free and never replaces a file |
| `RelaySpool.Spool.RemoveUsage` | cmd/realtime_usage_relay.go:221-231 | removal takes away that name and no other, or nothing |
| `RelaySpool.Spool.RemovePending` | cmd/realtime_usage_relay.go:278-280 | removal of a pending name alone |
| `RelaySpool.Spool.CreateTemp` | cmd/realtime_usage_relay.go:444-447 | a new empty pending file under a name that no file has now; its random part may be one that a renamed file had |
| `RelaySpool.Spool.SetUsageAside` | cmd/realtime_usage_relay.go:311-313 | quarantine takes the name away exactly when the rename succeeds, and records as taken exactly the valid record that was there |
| `RelaySpool.Spool.TargetIsValid` | cmd/realtime_usage_relay.go:297-315 | "valid" means a readable record of that identity is there, "invalid" that the name is free now; a valid record leaves the name if and only if it is looked at, the read of it fails and the rename succeeds; no other identity is touched |
| `RelaySpool.Spool.CanonicalMatches` | cmd/realtime_usage_relay.go:334-353 | a match means a valid record of the identity is at its canonical name |
| `RelaySpool.Spool.InstallLegacy` | cmd/realtime_usage_relay.go:271-282 | installing a legacy record loses and adds no identity, wherever it stops |
| `RelaySpool.Spool.InstallPending` | cmd/realtime_usage_relay.go:271-282 | done means the record moved from its pending to its canonical name, which was free; otherwise the pending file is still there |
| `RelaySpool.Spool.MoveToCanonical` | cmd/realtime_usage_relay.go:371-389 | on success the canonical name holds the identity; the set of durable identities never changes, wherever it stops |
| `RelaySpool.Spool.MigrateLegacy` | cmd/realtime_usage_relay.go:355-390 | as above, and the identity it reports is durable under its canonical name |
| `RelaySpool.Spool.FillTemp` | cmd/realtime_usage_relay.go:456-467 | a failed write leaves an empty, partial or complete temporary file, and a successful one the complete envelope |
| `RelaySpool.Spool.LinkTemp` | cmd/realtime_usage_relay.go:475-487 | under a name that was free: the file is installed there, or a rival record is, or nothing changed; without faults the first |
| `RelaySpool.Spool.InstallTemp` | cmd/realtime_usage_relay.go:468-487 | the temporary file is dropped only once its envelope is at the canonical name; "already stored" means a valid record is there |
| `RelaySpool.Spool.UseTemp` | cmd/realtime_usage_relay.go:441-487 | fill, install and deferred cleanup leave the temporary name gone or a partial or complete file under it, whatever fails |
| `RelaySpool.Spool.PersistTemp` | cmd/realtime_usage_relay.go:444-487 | no durable or pending identity is lost by a write that fails or stops anywhere, except a record of its own identity after a failed read |
| `RelaySpool.Spool.PersistCanonical` | cmd/realtime_usage_relay.go:420-487 | the same from the check of the canonical name on; without faults a valid record stays and otherwise the envelope is put there, and nothing else changes |
| `RelaySpool.Spool.PersistReport` | cmd/realtime_usage_relay.go:401-487 | the same with the legacy record looked at first, within an operation that is under way |
| `RelaySpool.Spool.Persist` | cmd/realtime_usage_relay.go:401-487 | stored as present: a valid record is there; stored as new: the envelope of this very report is there, and is a valid record exactly if it is readable; no other identity is lost or added, no file comes to hold a report that none held before except this one or a rival's, and a record of its own identity goes only after a read that failed in this write; without faults it stores exactly once, and moves an existing legacy record instead of writing |
| `RelaySpool.Spool.SetPendingAside` | cmd/realtime_usage_relay.go:596-602 | the rename moves the file, whatever it overwrites, and records exactly the readable record it overwrote |
| `RelaySpool.Spool.PassOverPending` | cmd/realtime_usage_relay.go:596-602 | setting an undecodable file aside takes nothing away where no readable file was ever set aside |
| `RelaySpool.Spool.ReadPending` | cmd/realtime_usage_relay.go:587-604 | a pending file is read whole or set aside; what it held is then durable, taken or skipped, and no file holds a report that none held before |
| `RelaySpool.Spool.InstallChecked` | cmd/realtime_usage_relay.go:605-640 | a readable pending file is removed only when its identity is durable, and without faults it is |
| `RelaySpool.Spool.RecoverEntry` | cmd/realtime_usage_relay.go:587-640 | after an entry succeeded, what the file held is durable or was unreadable; wherever it stops, only what it records as taken is lost; without other faults an unreadable or undecodable file is renamed |
| `RelaySpool.Spool.InstallRecovered` | cmd/realtime_usage_relay.go:605-639 | a decodable pending file is removed only when its identity is durable |
| `RelaySpool.Spool.InstallOrDrop` | cmd/realtime_usage_relay.go:616-639 | the file is installed, or dropped because a rival installed its own record; dropped or done, the identity is durable |
| `RelaySpool.Spool.RecoverPending` | cmd/realtime_usage_relay.go:581-646 | the identities a restart finds stay the same wherever it stops, except those whose record it took away after a failed read; on success each has a canonical or legacy record |
| `RelaySpool.Spool.PassOver` | cmd/realtime_usage_relay.go:538-543 | the set-aside of an unreadable entry loses the identities of its record if and only if the rename succeeds and they have no other record |
| `RelaySpool.Spool.ReadEntry` | cmd/realtime_usage_relay.go:536-577 | what an entry yields is, whole, the report its file held, and that report is now canonical |
| `RelaySpool.Spool.LoadEntry` | cmd/realtime_usage_relay.go:528-577 | what an entry yields is, whole, the report its file held, and that report is now canonical; otherwise it passes over only what was unreadable, unprotectable or misnamed; an identity with a valid record there stops being durable if and only if the read of it fails, the rename succeeds and no other record holds it |
| `RelaySpool.Spool.QueueEntry` | cmd/realtime_usage_relay.go:562-577 | an entry's report is queued unless one of its identity is; none is queued that the directory, or a rival, did not hold |
| `RelaySpool.Spool.LoadUsage` | cmd/realtime_usage_relay.go:520-579 | each durable identity is queued once, unless taken or skipped, with a whole report that some file or a rival held; when every read fails and nothing else does, every record is taken away |
| `RelaySpool.Spool.LoadDirectory` | cmd/realtime_usage_relay.go:513-579 | recovery and load together: exactly the recoverable identities, once each, except those taken or skipped |
| `RelaySpool.Spool.LoadSpool` | cmd/realtime_usage_relay.go:513-579 | on success the queue holds exactly the recoverable identities, once each, except those this load took or skipped, and every queued report is, whole, one that a file held when the load began, or a rival's; it takes and skips only what it found, and nothing unless a read or mode change failed in it or a readable file had been set aside before |
| `RelaySpool.DropPendingKeeps` | cmd/realtime_usage_relay.go:609-613 | dropping a pending file hides no other |
| `RelaySpool.AsideKeeps` | cmd/realtime_usage_relay.go:596-602 | renaming a pending file loses at most what the new name held, and nothing, now or later, where no readable file was ever set aside |
| `RelaySpool.AsideLosesIff` | cmd/realtime_usage_relay.go:596-602 | it loses an identity if and only if the name it is renamed to held the only record of it |
| `RelaySpool.AShadowedRecordIsLost` | cmd/realtime_usage_relay.go:587-602 | a directory of two pending files in which it does |
| `RelaySpool.AFailedReadMarksARecord` | cmd/realtime_usage_relay.go:596-602 | a run of two processes that leaves a readable record under a renamed pending name |
| `RelaySpool.APartialFileReplacesARecord` | cmd/realtime_usage_relay.go:444-461 | a run of two more that draws the same temporary name again, stops while it writes and renames the partial file over the record |
| `RelaySpool.ATagDrawnTwiceLosesARecord` | cmd/realtime_usage_relay.go:587-602 | both together: a complete pending record is gone after one failed read |
| `RelaySpool.SetAsideLosesSoleCopy` | cmd/realtime_usage_relay.go:304-314 | taking a usage name away loses the identity if and only if no other name has a valid record of it |
| `RelaySpool.AFailedReadTakesTheOnlyRecord` | cmd/realtime_usage_relay.go:536-543 | a directory with one valid record and one failing read, after which the identity is gone |
| `RelaySpool.TempKeeps` | cmd/realtime_usage_relay.go:444-447 | a new temporary file under a free name hides nothing |
| `RelayProtocol.EnqueueKeeps` | cmd/realtime_usage_relay.go:107-154 | an enqueue, whatever its file procedures did, keeps what was accepted, and what the relay has queued or in hand |
| `RelayProtocol.EnqueueQueues` | cmd/realtime_usage_relay.go:128-153 | a report stored as new, or stored before an error, goes to the end of the queue; otherwise the queue is as it was |
| `RelayProtocol.EnqueueTouchesNoOther` | cmd/realtime_usage_relay.go:107-154 | an enqueue of another identity leaves what is durable, what is found and what is promised of this one as it was, whatever fails |
| `RelayProtocol.RestartKeeps` | cmd/realtime_usage_relay.go:72-101 | so does a restart, whichever reads failed in it |
| `RelayProtocol.TakeKeeps` | cmd/realtime_usage_relay.go:157-174 | taking an item from the backlog keeps it in hand |
| `RelayProtocol.SendKeeps` | cmd/realtime_usage_relay.go:175-191 | a send delivers, or keeps the item in hand while the relay is open |
| `RelayProtocol.RemoveKeeps` | cmd/realtime_usage_relay.go:178-191 | a removal, complete or not, only takes away what was delivered |
| `RelayProtocol.RetryKeeps` | cmd/realtime_usage_relay.go:193-213 | a retry gives the item back to the backlog unless the relay is closed |
| `RelayProtocol.StepKeepsInv` | cmd/realtime_usage_relay.go:107-231 | every step of every party keeps the invariant, forgets no promise except where it took a record away, and while the relay is open drops nothing it holds before it is delivered |
| `RelayProtocol.RunKeepsInv` | cmd/realtime_usage_relay.go:107-231 | so does every interleaving |
| `RelayProtocol.PromiseStays` | cmd/realtime_usage_relay.go:103-106 | an identity stays promised until a step takes a record of it away |
| `RelayProtocol.AcceptedIsNeverLost` | cmd/realtime_usage_relay.go:103-106 | in every interleaving with exits, restarts and failures of any call, an identity accepted at one step is at every later one delivered or a valid record on disk, unless a step in between took away a record of that identity |
| `RelayProtocol.AcceptedIsDurable` | cmd/realtime_usage_relay.go:103-106 | and while no read fails none is taken away: delivered or a valid record on disk |
| `RelayProtocol.HeldWhileOpen` | cmd/realtime_usage_relay.go:157-213 | over any run, what the relay has queued or in hand stays there until it is delivered, as long as the process neither closes nor exits |
| `RelayProtocol.StoredIsWorkedOn` | cmd/realtime_usage_relay.go:149-153 | so a report stored as new at one step is at every later one delivered or in the hands of the relay |
| `RelayProtocol.LoadedIsWorkedOn` | cmd/realtime_usage_relay.go:84-101 | and so is everything a start-up loads |
| `RelayProtocol.QueueIsFifo` | cmd/realtime_usage_relay.go:157-174 | a take serves the head of the queue, and otherwise the queue only grows at its end |
| `RelayProtocol.ServedInOrder` | cmd/realtime_usage_relay.go:157-174 | over any run the queue is served in order: after t takes, what was at place t is at the head |
| `RelayProtocol.TheNextTakeSendsIt` | cmd/realtime_usage_relay.go:157-176 | the take after those of the items ahead sends the item, also after closing, unless the drain was cancelled |
| `RelayProtocol.RemovalRemoves` | cmd/realtime_usage_relay.go:221-231 | the removal after a delivery takes the record from under its canonical name and touches no other file |
| `RelayProtocol.StepForgets` | cmd/realtime_usage_relay.go:107-231 | what no file and no worker holds no step brings back, except an enqueue of that identity |
| `RelayProtocol.RemovedIsNotSentAgain` | cmd/realtime_usage_relay.go:178-191 | so over any run a report that was delivered and removed is not sent again, in this process or a later one, until it is enqueued again |
| `RelayProtocol.StepMakesNothingUp` | cmd/realtime_usage_relay.go:107-231 | every report in a file, in the queue or in a worker's hand was, whole, in one of these before the step, or was given to it |
| `RelayProtocol.SentWasStored` | cmd/realtime_usage_relay.go:572-577 | over any run, what a worker sends is, whole, a report that some file held at the start, that was given to `Enqueue`, or that a rival installed |
| `RelayProtocol.RestartResumes` | cmd/realtime_usage_relay.go:72-95 | a restart that loads the spool queues every accepted undelivered identity, unless it passed its record over or took it away |
| `RelayProtocol.SurvivesExitIffReadable` | cmd/realtime_usage_relay.go:489-511 | a newly accepted report is queued by the next process if and only if its envelope is within the read limits |
| `RelayProtocol.ReadableIff` | cmd/realtime_usage_relay.go:489-511 | what is written for a body can be read back if and only if encoded body and principal fit the two limits and the body stays below the nesting limit |
| `RelayProtocol.EncodedReadableIff` | internal/koe/realtime.go:828-837 | for a body that an encoder made: if and only if the principal fits into what the body leaves, and the body stays below the nesting limit |
| `RelayProtocol.LongPrincipalIsUnreadable` | cmd/realtime_usage_relay.go:428-434 | no body, however small, can be read back if its principal does not fit |
| `RelayProtocol.RawMarksAreUnreadable` | cmd/realtime_usage_relay.go:111-117 | a body that is admitted and cannot be read back, for a caller that does not encode |
| `RelayProtocol.DeepestBodyIsUnreadable` | cmd/realtime_usage_relay.go:114-117 | another, nested as deep as the parser admits |
| `RelayProtocol.StoreAndExit` | cmd/realtime_usage_relay.go:107-154 | a run: without faults every admissible body is stored as new |
| `RelayProtocol.StoredAcrossRestart` | cmd/realtime_usage_relay.go:72-154 | its next process, without faults, queues the report if and only if it can be read back |
| `RelayProtocol.AcceptedCanBeTakenAway` | cmd/realtime_usage_relay.go:536-543 | the same with failing reads in the next process: accepted, not delivered, and neither queued nor on disk |
| `RelayProtocol.RecoveryIsRestartable` | cmd/realtime_usage_relay.go:513-646 | after any number of attempts that stop or fail, whatever fails in them, the one that succeeds queues only identities that were there before the first, each once, and leaves out only what it passed over or what an attempt took away |
| `RelayProtocol.RecoveryIsExact` | cmd/realtime_usage_relay.go:513-646 | exactly those identities when reads work in every attempt and mode changes in the last |
| `RelayProtocol.UsageRelay.Die` | cmd/realtime_usage_relay.go:103-106 | an exit clears memory and keeps the directory |
| `RelayProtocol.UsageRelay.LoadDir` | cmd/realtime_usage_relay.go:513-579 | the spool's load, whatever fails in it, is the directory step of a restart |
| `RelayProtocol.UsageRelay.PersistDir` | cmd/realtime_usage_relay.go:215-219 | the spool's write, whatever fails in it, is the directory step of `Enqueue` |
| `RelayProtocol.UsageRelay.Begin` | cmd/realtime_usage_relay.go:84-101 | the loaded items become the backlog of two workers, or a refusal, as the restart step says |
| `RelayProtocol.UsageRelay.StartUp` | cmd/realtime_usage_relay.go:72-101 | start-up is a restart step with what this load recorded, whatever fails, and keeps the invariant |
| `RelayProtocol.UsageRelay.EnqueueReport` | cmd/realtime_usage_relay.go:122-154 | the locked part is an enqueue step with what this write recorded, so a report stored as new is at the end of the backlog; a nil error means stored; it keeps the invariant |
| `RelayProtocol.UsageRelay.Enqueue` | cmd/realtime_usage_relay.go:107-154 | a body inside the limits of length and nesting that parses is, while the relay is open, an enqueue step with the envelope written for it, which queues a newly stored report; any other changes nothing and reports an error |
| `RelayProtocol.UsageRelay.TakeNext` | cmd/realtime_usage_relay.go:157-174 | a worker takes the head of the backlog, quits when closed and empty, or waits exactly when open and empty |
| `RelayProtocol.UsageRelay.SendReturned` | cmd/realtime_usage_relay.go:175-191 | a successful send delivers; a failed one goes to the retry, or ends a cancelled worker |
| `RelayProtocol.UsageRelay.RemoveSpool` | cmd/realtime_usage_relay.go:178-191 | removal happens after delivery; when it fails the item is retried |
| `RelayProtocol.UsageRelay.RetryItem` | cmd/realtime_usage_relay.go:193-213 | a retry queues the item again, or leaves it on disk when closed or cancelled |
| `RelayProtocol.UsageRelay.CloseAdmission` | cmd/realtime_usage_relay.go:650-659 | closing is a step that keeps the invariant |
| `RelayProtocol.UsageRelay.CancelWorkers` | cmd/realtime_usage_relay.go:661-687 | so is cancelling after the drain |
| `JsonEncoding.MarksGrow` | cmd/realtime_usage_relay.go:428-434 | a raw value is written with at least six bytes for every less-than sign in it |
| `JsonEncoding.QuotedIsLonger` | cmd/realtime_usage_relay.go:428-434 | quoting a principal never shortens it |
| `JsonEncoding.QuotedBack` | cmd/realtime_usage_relay.go:428-434 | a quoted principal reads back as itself and takes exactly the counted number of bytes |
| `JsonEncoding.UnchangedIffCompacted` | cmd/realtime_usage_relay.go:428-434 | a raw value comes out as it went in if and only if nothing in it is left to encode |
| `JsonEncoding.EncodingKeepsMeaning` | cmd/realtime_usage_relay.go:428-434 | what a raw value says, tokens without white space and strings with the encoder's escapes resolved, is the same before and after it is written |
| `JsonEncoding.DepthIsKept` | cmd/realtime_usage_relay.go:428-434 | encoding changes no nesting |
| `JsonEncoding.NestedDepth` | cmd/realtime_usage_relay.go:489-493 | the nesting of n arrays in an object |
| `RunArchive.KeptExact` | internal/agent/loop.go:3458-3502 | the reference archive is every non-delta append of the range, in order, once each |
| `RunArchive.ArchiveRows` | internal/agent/loop.go:3458-3502 | an archive has exactly those identities, and every row the injected flag and timestamp of its own append |
| `RunArchive.FirstRow` | internal/agent/loop.go:3480-3500 | an archive begins with the run's first user message |
| `RunArchive.ArchiveGrows` | internal/agent/loop.go:3464-3475 | one more non-delta append is one more row |
| `RunArchive.ArchiveOfLonger` | internal/agent/loop.go:3523-3528 | a frozen archive stays right while the run goes on |
| `RunArchive.MarkedAt` | internal/agent/loop.go:3583-3591 | marking an index records its entry and touches no other |
| `RunArchive.AppendKeeps` | internal/agent/loop.go:3583-3591 | an append with its marks keeps the invariant of the run |
| `RunArchive.ReplaceKeeps` | internal/agent/loop.go:3540-3578 | replacing the slice by any shape of it, with metadata moved and archive frozen, keeps the invariant |
| `RunArchive.RemapCompactionMetadata` | internal/agent/loop.go:2932-2960 | every new index has the metadata of its source and synthetic ones none; the offset is the last index that came from the old offset, or -1 |
| `RunArchive.TailRows` | internal/agent/loop.go:3460-3475 | the capture loop extends an archive by exactly the live tail, every row the whole message that was appended, but for the scaffold of the first |
| `RunArchive.AgentLoop.CaptureArchive` | internal/agent/loop.go:3458-3502 | before or after any compaction, a capture publishes the complete archive, every message whole |
| `RunArchive.AgentLoop.CaptureCheckpoint` | internal/agent/loop.go:3503-3520 | the checkpoint becomes exactly the live messages after the system prompt that were appended as neither injected nor delta, synthetic ones included, in order, once each and whole, if a compaction was applied and they carry the marker; else it stays |
| `RunArchive.AgentLoop.Capture` | internal/agent/loop.go:3458-3521 | both: the complete archive, and that checkpoint |
| `RunArchive.AgentLoop.ApplyShapedHistory` | internal/agent/loop.go:3540-3578 | applied exactly when the shape does not grow, differs and has an origin per message; then archive and checkpoint are captured before the slice becomes the shape, else nothing changes |
| `RunArchive.AgentLoop.Run` | internal/agent/loop.go:3446-3578 | over any run of appends, captures and compactions the last capture is the complete archive, every message whole and the first as the user typed it; the metadata follows its messages; and once a compaction was applied the durable checkpoint is exactly the view of the final live messages, or an earlier marked one if that view carries no marker |
| `RunArchive.AgentLoop.Perform` | internal/agent/loop.go:3446-3591 | a step of a run appends what it says with its marks, or captures, or compacts, and nothing else enters the log |
| `RunArchive.LiveIsView` | internal/agent/loop.go:3505-3513 | the checkpoint loop shows a live message if and only if its own append was neither injected nor delta, however its index moved |
| `RunArchive.ViewIsOne` | internal/agent/loop.go:3503-3513 | there is exactly one such view of a live slice |
| `RunArchive.CompactedIff` | internal/context/sanitize.go:47-57 | a view carries the marker if and only if a summary stands behind its first user message, which may follow a system prompt |
| `RunArchive.OnlyTheScaffoldChanges` | internal/agent/loop.go:3485-3513 | only the text of a user message that is the scaffold is replaced |
| `RunArchive.Begin` | internal/agent/loop.go:3371-3378 | a run starts in the invariant with its history and first user message recorded whole |
| `RunArchive.Append` | internal/agent/loop.go:3583-3591 | an append records the message with its marks and adds it to the slice |
| `DesktopSession.EmitReadyKeeps` | cmd/koe.go:1208-1225 | announcing readiness keeps the protocol invariant |
| `DesktopSession.FailActiveKeeps` | cmd/koe.go:1329-1338 | failing a call keeps it and reports the end |
| `DesktopSession.CloseKeeps` | cmd/koe.go:1226-1246 | closing a session at any point establishes it: the connection goes to one closer, the attempt number moves on |
| `DesktopSession.EnsureWarmKeeps` | cmd/koe.go:1339-1380 | warming keeps it, never activates a call and keeps the burst of an active one |
| `DesktopSession.EndAndCloseKeeps` | cmd/koe.go:1505-1514 | ending and closing commute, and ending a call establishes the invariant |
| `DesktopSession.StartCallKeeps` | cmd/koe.go:1465-1503 | starting a call keeps it, whichever device fails |
| `DesktopSession.AnswerKeeps` | cmd/koe.go:1483-1502 | so does the part after the session is warm or warming |
| `DesktopSession.ReconnectKeeps` | cmd/koe.go:1309-1326 | so does the second region of a lost session's handler, whatever came in between |
| `DesktopSession.ConnectReturnedKeeps` | cmd/koe.go:1437-1462 | so does the return of a connect, stale or not |
| `DesktopSession.SessionClosedKeeps` | cmd/koe.go:1283-1308 | so does the first region of a lost session's handler |
| `DesktopSession.EndCallKeeps` | cmd/koe.go:1505-1515 | so does the end of a call |
| `DesktopSession.RotationFiredKeeps` | cmd/koe.go:1271-1279 | so does a rotation timer, late or not |
| `DesktopSession.RetryFiredKeeps` | cmd/koe.go:1254-1258 | so does a retry |
| `DesktopSession.ProviderReadyKeeps` | cmd/koe.go:1399-1406 | so does a readiness callback, of whichever session |
| `DesktopSession.StepKeepsInv` | cmd/koe.go:1173-1534 | every locked region keeps the invariant |
| `DesktopSession.RunKeepsInv` | cmd/koe.go:1173-1534 | it holds in every state of every interleaving |
| `DesktopSession.ConnectionsHaveOneOwner` | cmd/koe.go:1226-1463 | in every reachable state each returned connection is the current one, with the number `sessionSeq` counts, or was handed to exactly one closer |
| `DesktopSession.StepSettles` | cmd/koe.go:1173-1534 | apart from a completing connect no step makes a connection current, lowers the attempt number or changes the burst of a call that stays active |
| `DesktopSession.StaleNeverBecomesCurrent` | cmd/koe.go:1441-1461 | in any run a connection becomes current only by the return of the attempt `sessionSeq` counts, whose number never goes back |
| `DesktopSession.StepPromotes` | cmd/koe.go:1441-1461 | the same for one step from any state with consistent flags |
| `DesktopSession.ReportedStateIsTrue` | cmd/koe.go:1208-1534 | in every reachable state the call state reported last is the true one: ended unless the call is active, `on_call` exactly when readiness was announced for the current session |
| `DesktopSession.OnCallsAreSeparated` | cmd/koe.go:1208-1534 | between two `on_call` emissions of a run there is a `connecting` |
| `DesktopSession.StepEarns` | cmd/koe.go:1208-1534 | a step emits at most one `on_call`, as its last call state |
| `DesktopSession.OnCallMeansReady` | cmd/koe.go:1208-1225 | in any run emission only appends, and an `on_call` among what a step emits leaves the call active, the session ready and the audio started |
| `DesktopSession.BurstIsKept` | cmd/koe.go:1298-1308 | over any stretch in which the call stays active its burst is the same, whatever happens to sessions |
| `DesktopSession.StartWarms` | cmd/koe.go:1465-1503 | a call started with nothing warm and a working device starts exactly one connect attempt, under a new number, and waits for it with its audio running |
| `DesktopSession.StartWaits` | cmd/koe.go:1465-1503 | one started while a session is on its way waits for that |
| `DesktopSession.StartIsOn` | cmd/koe.go:1465-1503 | one started on a warm and ready session is on at once |
| `DesktopSession.StartFails` | cmd/koe.go:1484-1496 | one whose audio cannot be started ends again and leaves a fresh attempt on its way |
| `DesktopSession.RetryWarms` | cmd/koe.go:1254-1258 | a retry with nothing connected or on the way starts exactly one attempt |
| `DesktopSession.NoDeviceEndsTheCall` | cmd/koe.go:1339-1362 | without the device no attempt starts, and an active call ends and is reported |
| `DesktopSession.LostLeavesTheCall` | cmd/koe.go:1283-1308 | the loss of the current session of an active call leaves it active, reported as connecting, with a handler to go on |
| `DesktopSession.ResumeWarms` | cmd/koe.go:1309-1326 | that handler starts exactly one attempt for the same burst, with the audio running |
| `DesktopSession.IdleLossWarms` | cmd/koe.go:1283-1308 | outside a call a lost session is replaced by one new attempt, and its connection goes to a closer |
| `DesktopSession.RotationWarms` | cmd/koe.go:1271-1279 | so is a rotated one |
| `DesktopSession.EndWarms` | cmd/koe.go:1505-1515 | the end of a call is reported, hands its connection over and starts the next attempt |
| `DesktopSession.ConnectSettles` | cmd/koe.go:1437-1462 | the current attempt's connection becomes the session, or its failure ends what waited for it |
| `DesktopSession.ReadySettles` | cmd/koe.go:1399-1406 | readiness of the current session is taken, and announced if a heard call is active |
| `DesktopSession.StepAnnounces` | cmd/koe.go:1208-1534 | no step leaves an active call with a connected, ready and heard session unannounced, or unheard without a handler under way |
| `DesktopSession.ActiveCallsAreServed` | cmd/koe.go:1208-1534 | so in every reachable state with no handler between its regions an active call has audio and a session, connected or on its way, and is reported as on once that is connected and ready |
| `DesktopSession.FirstCall` | cmd/koe.go:1339-1503 | the run Start, connect, ready ends with the call on |
| `DesktopSession.ALostCallIsOnAgain` | cmd/koe.go:1283-1326 | a run in which that call loses its session and is on again with the next one and the same burst |
| `DesktopSession.DesktopCall.EmitReadyLocked` | cmd/koe.go:1208-1225 | announces readiness on the shared variables exactly when the call is active, ready and heard and it was not announced yet |
| `DesktopSession.DesktopCall.CloseSessionLocked` | cmd/koe.go:1226-1246 | leaves the shared variables as the closing step does and returns the connection that is to be stopped |
| `DesktopSession.DesktopCall.StartSessionAudioLocked` | cmd/koe.go:1184-1207 | succeeds exactly when audio runs or can be started, and then it runs |
| `DesktopSession.DesktopCall.FailActiveCallLocked` | cmd/koe.go:1329-1338 | ends an active call and reports it, and leaves any other state alone |
| `DesktopSession.DesktopCall.EnsureWarmSessionLocked` | cmd/koe.go:1339-1380 | takes that step on the shared variables: one connect attempt under a new number unless one is pending, connected or the context is done, and without a device the call fails instead |
| `DesktopSession.DesktopCall.Start` | cmd/koe.go:1465-1503 | the start of a call, with its two chances to warm a session, is the protocol step whichever device fails, and keeps the invariant |
| `DesktopSession.DesktopCall.AnswerLocked` | cmd/koe.go:1483-1502 | so is its second part |
| `DesktopSession.DesktopCall.End` | cmd/koe.go:1505-1515 | the end of a call is the protocol step: inactive, closed, reported, warmed again, in the order of the code; it keeps the invariant |
| `DesktopSession.DesktopCall.Rotate` | cmd/koe.go:1271-1279 | a rotation timer acts only for the session it was armed for, idle and connected, and keeps the invariant |
| `DesktopSession.DesktopCall.Retry` | cmd/koe.go:1254-1258 | a retry warms only when nothing is connected or pending, and keeps the invariant |
| `DesktopSession.DesktopCall.HandleSessionClosed` | cmd/koe.go:1283-1307 | the first region of a lost session is the protocol step, goes on to the second exactly when the lost session was current and the call active, and keeps the invariant |
| `DesktopSession.DesktopCall.Resume` | cmd/koe.go:1309-1326 | the second region re-reads the variables, is the protocol step from whatever they are then, and keeps the invariant |
| `DesktopSession.DesktopCall.OnReady` | cmd/koe.go:1399-1406 | only the current session becomes ready, and the invariant stays |
| `DesktopSession.DesktopCall.ConnectDone` | cmd/koe.go:1441-1462 | the return of a connect is the protocol step, a stale goroutine is told to close what it got, and the invariant stays |
| `WarmMint.HandOver` | cmd/koe.go:557-560 | a handout adds exactly its secret to those handed out |
| `WarmMint.HandoverKeeps` | cmd/koe.go:553-573 | handing out a secret not yet handed out keeps handouts distinct and paired |
| `WarmMint.TakeKeeps` | cmd/koe.go:553-563 | a take keeps the invariant |
| `WarmMint.PrefetchReturnedKeeps` | cmd/koe.go:586-606 | so does the return of a background mint |
| `WarmMint.DirectReturnedKeeps` | cmd/koe.go:565-572 | so does a direct mint |
| `WarmMint.StepKeepsInv` | cmd/koe.go:526-609 | every step keeps it |
| `WarmMint.FreshIsNeverOverwritten` | cmd/koe.go:575-584 | while the cached secret is fresh a step leaves it alone or hands that very secret out |
| `WarmMint.TakeIff` | cmd/koe.go:553-573 | a take gets the cached secret if and only if there is one below the ttl when it asked, and then leaves the cache empty and a prefetch due; otherwise it mints one itself |
| `WarmMint.PrefetchLaunchesIff` | cmd/koe.go:575-584 | a prefetch starts a mint if and only if none is under way and nothing cached is below the ttl |
| `WarmMint.MintIsUsed` | cmd/koe.go:565-607 | what a mint brings is cached with its principal, or handed to the take that asked for it; one that fails changes nothing |
| `WarmMint.RunKeepsInv` | cmd/koe.go:526-609 | the invariant holds throughout every run |
| `WarmMint.HandedOutOnce` | cmd/koe.go:526-609 | in every interleaving each secret is handed out once, with the principal of its mint, from the cache only below the ttl at the moment the take asked; one never handed out is cached or was replaced after it expired |
| `WarmMint.NextTakeGetsIt` | cmd/koe.go:526-609 | in every run the first take after a background mint gets that very secret with its principal, as long as it is below the ttl |
| `WarmMint.YoungIffStillFresh` | cmd/koe.go:553-563 | in every run, what a take gets from the cache is below the ttl at that moment if and only if the cached secret is still fresh by the clock of that moment |
| `WarmMint.AWaitingTakeGetsAnExpiredSecret` | cmd/koe.go:553-557 | a run in which a cached secret is granted at exactly the age of the ttl |
| `WarmMint.WarmMint.Take` | cmd/koe.go:553-563 | the method takes that step, returns the cached pair on a hit, and keeps the invariant |
| `WarmMint.WarmMint.Prefetch` | cmd/koe.go:575-582 | starts a background mint exactly when none is running and nothing fresh is cached, and keeps the invariant |
| `WarmMint.WarmMint.Prefetched` | cmd/koe.go:595-607 | stores a successful mint and ends the flight either way, and keeps the invariant |
| `ComputerUse.MergedIsStrongest` | internal/agent/computer_use_outcome.go:18-39 | the merged effect of any sequence is `unknown` if any part is, else `committed` if any part is, else `none` |
| `ComputerUse.CorrectedIff` | internal/agent/computer_use_turn_boundary.go:62-80 | a correction is well-formed if and only if it names an application with a printed character and one of the two policies |
| `ComputerUse.ReportDecides` | internal/agent/loop.go:6772-6842 | which reports ask for the retry and which release the desktop, in the fields of the outcome; any other leaves the flags as they were |
| `ComputerUse.OwnedDesktopRefuses` | internal/agent/loop.go:6235-6245 | while a task owns the desktop exactly the calls that would not control it are admitted |
| `ComputerUse.PolicyStep` | internal/agent/loop.go:6235-6281 | from any policy state one decision leaves flags and policy as they were, or is one allowed step of both; an owner admits no second computer_use call |
| `ComputerUse.DecisionFollows` | internal/agent/loop.go:6235-6281 | one decision and its flags are a legal step of the ownership policy, and it takes the desktop exactly when it admits a computer_use call |
| `ComputerUse.AdmittedIffAllowed` | internal/agent/loop.go:6235-6281 | a call that is neither vetoed nor a duplicate is admitted exactly when the policy allows it and it does not stand beside a computer_use call |
| `ComputerUse.AdmissionFollows` | internal/agent/loop.go:6174-6281 | so is the admission of a response, which admits at most one computer_use call |
| `ComputerUse.ResultFollows` | internal/agent/loop.go:6772-6842 | so is reading one result |
| `ComputerUse.ResultsFollow` | internal/agent/loop.go:6755-6842 | so is reading all results of a response |
| `ComputerUse.RespondKeepsInv` | internal/agent/loop.go:6178-6842 | between responses the flags reflect the policy state and no call is left unreported |
| `ComputerUse.RunFollowsPolicy` | internal/agent/loop.go:6178-6842 | for every run of responses the four flags refine the policy automaton |
| `ComputerUse.CountByPhase` | internal/agent/loop.go:6275-6281 | how many computer_use calls each policy state allows |
| `ComputerUse.SinceCu` | internal/agent/loop.go:6772-6842 | after a computer_use call only its own report leads to a retry or a release |
| `ComputerUse.AtMostTwoTasks` | internal/agent/loop.go:6178-6842 | over any run of responses at most two computer_use calls are admitted |
| `ComputerUse.DesktopIsOwned` | internal/agent/loop.go:6178-6842 | over any run, after a computer_use call another is admitted only as a well-formed correction after a valid, not-completed, no-effect request for one, and any other desktop call only after a valid no-effect release |
| `ComputerUse.NothingBesideCu` | internal/agent/loop.go:6243-6245 | in a response with a computer_use call no other desktop call is admitted |
| `ComputerUse.CorrectionIsDecided` | internal/agent/loop.go:6246-6260 | awaiting a correction, a response with a well-formed one admits exactly one whatever surrounds it, and one with only malformed ones consumes the retry |
| `ComputerUse.TheCorrectionRuns` | internal/agent/loop.go:6178-6842 | the first task of a run that asks for applications gets its second attempt if and only if the correction names one; a blank one uses it up |
| `ComputerUse.ComputerUseTurn.Scan` | internal/agent/loop.go:6178-6188 | the scan finds a computer_use call and a well-formed correction if there are any |
| `ComputerUse.ComputerUseTurn.AdmitOne` | internal/agent/loop.go:6235-6281 | the flags and the decision after one call |
| `ComputerUse.ComputerUseTurn.AdmitResponse` | internal/agent/loop.go:6189-6281 | the loop admits a response as the model does, duplicates and vetoes included |
| `ComputerUse.ComputerUseTurn.ReadResult` | internal/agent/loop.go:6772-6842 | the flags after one result, and the outcome with a spent recovery withdrawn |
| `ComputerUse.ComputerUseTurn.ReadResults` | internal/agent/loop.go:6755-6842 | the flags after all results |
| `ComputerUse.ComputerUseTurn.HandleResponse` | internal/agent/loop.go:6178-6842 | admission and results of one response extend the history of the turn as the policy allows, and the flags go on to reflect it |
| `ToolCompression.Tier2BlocksEvolve` | internal/agent/loop.go:8807-8871 | tier 2 keeps number, kind and identity of blocks, marks every result, rewrites only unmarked ones and attempts at most two summaries in all |
| `ToolCompression.AgeMarks` | internal/agent/loop.go:8714-8740 | a native message keeps its shape and every unmarked result in it is marked with exactly the tier of its age |
| `ToolCompression.AgeEvolves` | internal/agent/loop.go:8714-8740 | a native message is rewritten only that way, settles, and never falls to tier 1 if it holds a floor tool's result |
| `ToolCompression.Tier2Content` | internal/agent/loop.go:8807-8871 | at tier 2 the first results of a pass that want a summary, long, no summary yet and not of a tool that is never summarised, get one attempt each while two last, and its answer if there is one; every other keeps its own content, cut |
| `ToolCompression.SettledStays` | internal/agent/loop.go:8600-8612 | a later pass leaves a settled message alone and asks for no summary |
| `ToolCompression.IndicesAreOrdered` | internal/agent/loop.go:8684-8706 | the messages with results are found, all of them, in order |
| `ToolCompression.NativeIff` | internal/agent/loop.go:8684-8706 | a message holds native results if and only if it is a user's and one of its blocks is a result |
| `ToolCompression.CompressAges` | internal/agent/loop.go:8713-8741 | a pass rewrites each old result message once and nothing else |
| `ToolCompression.PassOnResult` | internal/agent/loop.go:8708-8741 | the newest `keepRecent` result messages are untouched; older native ones evolve, settle and respect the floor |
| `ToolCompression.PassTier` | internal/agent/loop.go:8710-8740 | an unmarked old native result falls to tier 1 exactly when at least twenty result messages are newer and its message holds no floor tool, else to tier 2 |
| `ToolCompression.PassShortens` | internal/agent/loop.go:8713-8741 | over the whole pass, oldest first: which attempt a result gets is the number of those before it that wanted one |
| `ToolCompression.PassAttempts` | internal/agent/loop.go:8713-8741 | a pass makes as many attempts as results want a summary, up to two |
| `ToolCompression.OldResultNamesItsCall` | internal/agent/loop.go:8606-8633 | the line an old result is reduced to names the last call that carries its id, that call's input and the length of the result |
| `ToolCompression.ReadingsStay` | internal/agent/loop.go:8660-8778 | a message with the result of a tool that reads files, directories or pages never falls to tier 1, however old |
| `ToolCompression.PassKeeps` | internal/agent/loop.go:8678-8742 | a pass keeps number, order and roles, every message without results, and makes at most two summary attempts, none without a completer |
| `ToolCompression.UserMessageEvolves` | internal/agent/loop.go:8600-8612 | over any run of appends and passes a user message only evolves |
| `ToolCompression.BlockChangesAtMostOnce` | internal/agent/loop.go:8797-8805 | over any run a native block changes at most once, and then is a result marked tier 1 or 2 with its identity |
| `ToolCompression.SecondPassIsIdle` | internal/agent/loop.go:8797-8812 | on native blocks a second pass that keeps at least as many recent results changes nothing and asks for no summary, whatever its other parameters |
| `ToolCompression.IdsOfResult` | internal/agent/loop.go:8718-8735 | a result message keeps its tool-use ids unless it meets the guard of the text path |
| `ToolCompression.IdsAreKeptIff` | internal/agent/loop.go:8687-8735 | a pass keeps the tool-use ids of every message if and only if none meets it |
| `ToolCompression.AQuotedCallIsLost` | internal/agent/loop.go:8710-8735 | a conversation in which a message loses its call: a quoted executed call beside a call, and at least twenty newer result messages, whatever the squeezed text |
| `ToolCompression.TruncationKeepsEnds` | internal/agent/loop.go:8875-8887 | a cut keeps three quarters of the limit at the head and a quarter at the tail, in place, and says between them how much is gone |
| `ToolCompression.ClipCutsEachPart` | internal/agent/loop.go:8845-8868 | cutting a result of several parts cuts each text so, replaces each image by a note and keeps the rest in place |
| `ToolCompression.CutTextIsStillTooLong` | internal/agent/loop.go:8797-8805 | a cut text exceeds the limit again, so only the mark keeps it from being cut on |
| `ToolCompression.BuildToolCallMap` | internal/agent/loop.go:8576-8597 | the loop collects the calls by id, the last of an id winning |
| `ToolCompression.CallMapIff` | internal/agent/loop.go:8576-8597 | the ids in the map are exactly the nonempty ones of the tool uses in assistant messages |
| `ToolCompression.CallMapIsLast` | internal/agent/loop.go:8576-8597 | an id maps to the name and the cut input of the last call in the history that carries it |
| `ToolCompression.FindResults` | internal/agent/loop.go:8684-8706 | the loop lists the result messages |
| `ToolCompression.StripToMetadata` | internal/agent/loop.go:8606-8633 | the loop reduces every unmarked result and nothing else |
| `ToolCompression.CompressTier2Blocks` | internal/agent/loop.go:8807-8871 | the loop rewrites blocks as the model does and counts its attempts |
| `ToolCompression.CompressOldToolResults` | internal/agent/loop.go:8678-8742 | the pass over the array, in place, is the pass of the model |
| `ReplyPlan.RemoveRemoves` | internal/agent/loop.go:2369-2380 | removal drops that id only and makes no duplicates |
| `ReplyPlan.RemoveTakesOne` | internal/agent/loop.go:2369-2380 | of ids that differ only the one is taken out, and the others stay in place |
| `ReplyPlan.CommitAdds` | internal/agent/loop.go:4395-4427 | a batch moves the target to its last cloud id and adds its ids once each |
| `ReplyPlan.CommitAppends` | internal/agent/loop.go:4395-4427 | behind those that were pending, in the order of the batch |
| `ReplyPlan.StepKeepsInv` | internal/agent/loop.go:4395-4451 | a step keeps pending and answered a duplicate-free split of what was absorbed, with the target pending |
| `ReplyPlan.PlanIsKept` | internal/agent/loop.go:2344-2352 | so does every run whose superseding answered batches carry a cloud id |
| `ReplyPlan.SilentTurnKeeps` | internal/agent/loop.go:5963-5992 | a turn whose answer does not go out, or that nothing supersedes, removes nothing from pending and answers nothing |
| `ReplyPlan.DeliveredTurnAnswers` | internal/agent/loop.go:5963-5992 | one whose answer goes out answers exactly the superseded target and takes exactly that id out of pending |
| `ReplyPlan.TargetIsPendingIff` | internal/agent/loop.go:5966-5988 | after an answered turn is superseded the target is pending if and only if the batch carries a cloud id |
| `ReplyPlan.AnIdlessFollowUpAnswersTwice` | internal/agent/loop.go:5966-5988 | a run without that answers an id twice |
| `ReplyPlan.Loop.AppendPendingAck` | internal/agent/loop.go:2355-2365 | appends an id that is not there |
| `ReplyPlan.Loop.RemovePendingAck` | internal/agent/loop.go:2369-2380 | removes an id wherever it is |
| `ReplyPlan.Loop.CommitInjectedTurn` | internal/agent/loop.go:4395-4451 | commits exactly a nonempty batch, and keeps the invariant |
| `ReplyPlan.Loop.FinishTurn` | internal/agent/loop.go:5963-5992 | the end of a turn is that step of the plan, and keeps the invariant under its premises |
| `NudgeWindow.SinceTwice` | internal/agent/loop.go:8469-8481 | forgetting early does not change a later answer |
| `NudgeWindow.CurrentAdvances` | internal/agent/loop.go:8469-8481 | pruning what was kept equals pruning the whole history |
| `NudgeWindow.FiresIff` | internal/agent/loop.go:8466-8481 | a nudge stops the run if and only if the window that ends with its iteration holds `max` nudges of the whole history |
| `NudgeWindow.Window.Prune` | internal/agent/loop.go:8472-8479 | the in-place filter keeps exactly the recent ones, in order |
| `NudgeWindow.Window.RecordAndCheck` | internal/agent/loop.go:8466-8481 | true exactly when the full history has at least `max` nudges in the trailing window |
| `NudgeWindow.OneWindow` | internal/agent/loop.go:8466-8481 | a run never stopped has fewer than `max` nudges in any window's worth of iterations |
| `NudgeWindow.NudgesAreBounded` | internal/agent/loop.go:7269-7283 | and at most `(max-1)*ceil(n/window)` over `n` iterations |
| `LlmDispatch.ErrorIsBounded` | internal/agent/loop.go:5109-5345 | an error leaves the call count within its account |
| `LlmDispatch.AttemptIsBounded` | internal/agent/loop.go:5001-5345 | so does an attempt |
| `LlmDispatch.IterateIsBounded` | internal/agent/loop.go:4453-5474 | so does the rest of a run from the top of an iteration |
| `LlmDispatch.CallsAreBounded` | internal/agent/loop.go:4453-5474 | for every provider the loop ends within `4*maxIter + 5` completion calls |
| `LlmDispatch.LaterIterations` | internal/agent/loop.go:4453-5474 | a provider that makes every later iteration cost four |
| `LlmDispatch.BoundIsReached` | internal/agent/loop.go:4453-5474 | for every positive `maxIter` some provider reaches the bound exactly |
| `LlmDispatch.ReplyFits` | internal/agent/loop.go:5001-5345 | one attempt, seen from its reply alone: retried in its pass if and only if the error is not cancelled, expired or over budget and is the run's first overflow with a request that can be rebuilt, or retryable with an attempt left and an uncancelled wait; and which reply each ending stands for |
| `LlmDispatch.RepliesDecide` | internal/agent/loop.go:4453-5474 | for every provider the run is decided by its replies: each attempt is at the place the reply before it leads to, the calls are those the replies cost, and the way the run ends is the one the last reply stands for |
| `LlmDispatch.Pass` | internal/agent/loop.go:5001-5420 | the attempt loop ends, and is the rest of the run as the model says |
| `LlmDispatch.Run` | internal/agent/loop.go:4453-5474 | the nested loops compute the run of the model |
| `FileRestore.ClipWithMarker` | internal/agent/filerestore.go:223-232 | the loop finds the cut of the model |
| `FileRestore.CutIsValid` | internal/agent/filerestore.go:219-232 | cutting valid UTF-8 where a rune starts leaves valid UTF-8 |
| `FileRestore.ClippedIsValid` | internal/agent/filerestore.go:219-232 | a clip keeps valid text, within the limit and short of it by at most three bytes |
| `FileRestore.ReplaceKeepsLength` | internal/agent/filerestore.go:274-276 | neutralising closing tags keeps the length the budget counted |
| `FileRestore.NoClosingTag` | internal/agent/filerestore.go:274-276 | no closing tag is left or formed |
| `FileRestore.RangeIsNumbered` | internal/agent/filerestore.go:182-217 | the content's lines are exactly the lines of the file that the reported numbers name |
| `FileRestore.RangeIsValid` | internal/agent/filerestore.go:182-217 | a range of a valid file is valid text |
| `FileRestore.RereadIff` | internal/agent/filerestore.go:182-217 | a file is read again if and only if its extension is allowed, it can be read, is within the size limit, valid UTF-8 and not empty |
| `FileRestore.HeaderParsesBack` | internal/agent/filerestore.go:141-148 | the header of any nonempty path is parsed back to it, even if the path contains the mark |
| `FileRestore.CollectLines` | internal/agent/filerestore.go:133-151 | the loop over lines collects the paths of the restore headers |
| `FileRestore.KeptFileReadPaths` | internal/agent/filerestore.go:131-175 | the loop over messages collects the paths the history holds |
| `FileRestore.KeptIff` | internal/agent/filerestore.go:131-175 | a history holds exactly the paths that a surviving read or a header line of a surviving restoration names |
| `FileRestore.BuildPostCompactionFileRestore` | internal/agent/filerestore.go:244-300 | the message is made of the sections of the model, or there is none |
| `FileRestore.AppendSections` | internal/agent/filerestore.go:265-290 | the budget loop builds those sections |
| `FileRestore.BuildKeepsBudget` | internal/agent/filerestore.go:265-290 | what is spent and what is left add up; an overdraft is at most the last section's overhang |
| `FileRestore.OnlyTheLastOverdraws` | internal/agent/filerestore.go:265-290 | every section but the last leaves some budget |
| `FileRestore.RestorationIsBounded` | internal/agent/filerestore.go:244-292 | at most five files and floor(3.5*budget) bytes beyond the last header and clip marker |
| `FileRestore.BuildSpends` | internal/agent/filerestore.go:265-290 | the budget loop spends what the lengths of the files alone say |
| `FileRestore.StaysWithinBudgetIff` | internal/agent/filerestore.go:219-222 | a restoration takes exactly what the lengths of headers and clipped contents take off the budget one after the other, and stays within it if and only if they do not overdraw it |
| `FileRestore.OneFileFitsIff` | internal/agent/filerestore.go:273-288 | for one file: if and only if header, three line ends and clipped content fit |
| `FileRestore.CutFileOvershoots` | internal/agent/filerestore.go:219-222 | a single file that is cut to the whole budget always exceeds it |
| `FileRestore.RestoredFilesAreNew` | internal/agent/filerestore.go:265-272 | no path twice, none the history holds, none excluded |
| `FileRestore.NothingIsSkipped` | internal/agent/filerestore.go:265-290 | a recent read that can be restored is, unless five files came first or the budget was used up |
| `FileRestore.BudgetIff` | internal/agent/filerestore.go:244-263 | there is a budget if and only if a thousand tokens are left, and it is what is left up to the cap |
| `FileRestore.LatestReadIsRestored` | internal/agent/filerestore.go:244-292 | the most recent read is restored, first, whenever there is a budget, its file can be read again and says something, and the history does not hold it |
| `FileRestore.SmallRangeIsWhole` | internal/agent/filerestore.go:273-276 | a range within the limits and without a closing tag comes back byte for byte |
| `FileRestore.HeaderIsALine` | internal/agent/filerestore.go:277-292 | every restored file's header is a line of the message, whatever the contents |
| `FileRestore.RestoredPathIsKept` | internal/agent/filerestore.go:131-151 | so the message is read back to hold every restored path |
| `FileRestore.SurvivingFileIsNotRestoredAgain` | internal/agent/filerestore.go:123-130 | while the message survives a later compaction restores none of its files |
| `FileRestore.LatestPerPath` | internal/agent/filerestore.go:72-79 | the loop keeps a most recent range per path |
| `FileRestore.RecentReads` | internal/agent/filerestore.go:64-92 | the result is the most recent reads, one a path, newest first, no more than asked |
| `DeferredTools.FilterPicks` | internal/agent/deferred.go:210-231 | the filter keeps exactly the wanted names, once each |
| `DeferredTools.FilterKeepsOrder` | internal/agent/deferred.go:210-231 | in canonical order |
| `DeferredTools.BuildActiveSchemas` | internal/agent/deferred.go:300-311 | every schema that is not cold, in canonical order |
| `DeferredTools.RemainingDeferredNames` | internal/agent/deferred.go:393-402 | the deferred names not loaded |
| `DeferredTools.RebuildSchemas` | internal/agent/deferred.go:214-231 | the names of base or loaded in canonical order, base schemas from the registry |
| `DeferredTools.PreseedDeferredSchemas` | internal/agent/deferred.go:371-390 | the earlier loads that are still deferred and not bound to the run |
| `DeferredTools.AdmittedIffAdvertised` | internal/agent/loop.go:6320-6353 | the gate passes a name exactly when it is advertised |
| `DeferredTools.RebuiltIsAdvertised` | internal/agent/loop.go:3240-3265 | what is rebuilt is the advertised list with the registry's own schemas |
| `DeferredTools.Begin` | internal/agent/loop.go:3109-3126 | a run starts with that list, with or without anything cold |
| `DeferredTools.Load` | internal/agent/loop.go:6706-6745 | a completed search adds its registered names and leaves that list |
| `DeferredTools.LoadOrderDoesNotMatter` | internal/agent/loop.go:6706-6745 | runs that loaded the same names advertise the same list and admit the same calls |
| `DeferredTools.ExpansionIsExact` | internal/agent/deferred.go:158-190 | the expansion holds exactly the matched deferred names and the deferred registered core tools of their families, once each |
| `DeferredTools.FirstOfGrows` | internal/agent/deferred.go:163-181 | the matched names come in the order found |
| `DeferredTools.SelectMatched` | internal/agent/deferred.go:163-181 | the first loop keeps the order found |
| `DeferredTools.AppendCores` | internal/agent/deferred.go:183-189 | the second appends the missing cores in canonical order |
| `DeferredTools.ExpandDeferredFamilyCore` | internal/agent/deferred.go:158-191 | together they are that expansion |
| `DeferredTools.ParsesBack` | internal/agent/deferred.go:131-149 | a printed header is parsed back |
| `DeferredTools.ParsesBackIff` | internal/agent/deferred.go:194-208 | for nonempty lists if and only if no name has a comma or line break and the joined text is nonempty and trimmed |
| `DeferredTools.NamesAreParsedBack` | internal/agent/deferred.go:194-208 | nonempty trimmed names without comma or line break are printed and parsed back |
| `PrefixTables.SinkOnce` | internal/agent/modelmaxtokens.go:98-102 | a swap keeps the elements and the order of the rest |
| `PrefixTables.SortByLength` | internal/agent/modelmaxtokens.go:98-102 | the in-place sort is a length-descending permutation |
| `PrefixTables.PrefixOrder` | internal/agent/modelmaxtokens.go:93-103 | the order holds every prefix of the table once, longest first |
| `PrefixTables.LongestIsOne` | internal/agent/modelmaxtokens.go:109-122 | at most one prefix is a longest match |
| `PrefixTables.FirstIsLongest` | internal/agent/modelmaxtokens.go:116-120 | the first match of the order is the longest |
| `PrefixTables.MaxTokensForModel` | internal/agent/modelmaxtokens.go:109-122 | the exact entry, else that of the longest matching prefix, else the default, for every map order |
| `PrefixTables.DatesDoNotNest` | internal/agent/modelcontext.go:157-182 | no date-shaped suffix ends in another |
| `PrefixTables.DateSuffixIff` | internal/agent/modelcontext.go:157-182 | a remainder is a date if and only if it is four, two and two digits with a dash between each two or between none |
| `PrefixTables.AtMostOneDated` | internal/agent/modelcontext.go:143-147 | for any table at most one prefix matches with a date-shaped remainder |
| `PrefixTables.LookupModelContextWindow` | internal/agent/modelcontext.go:136-149 | the exact entry, else that of the one dated prefix, else none, in whatever order the prefixes are |
| `Strings.SplitAt` | internal/agent/filerestore.go:137 | splitting distributes over a separator |
| `Strings.JoinSplit` | internal/agent/deferred.go:207 | joining what was split gives the text back |
| `Strings.SplitJoin` | internal/agent/deferred.go:141 | splitting joined pieces without the separator gives the pieces back |

## Left out

- AcceptedIsNeverLost: counts a newly stored report as accepted only if its envelope can be read back, because otherwise the promise fails.
- Spool: a second Koe process on the same directory is modelled only as one that installs its own valid record just before a link; two processes that quarantine the same name at once are not.
- Spool: power loss, and directory synchronisation as more than a call that may fail.  A process exit keeps every effect already made.
- RelayProtocol: usage that is not forwarded at all (no relay, or an own key with another provider, cmd/koe.go:88-102) returns nil before anything here; parsing the identity out of a body is a parameter of `Enqueue`.
- RelayProtocol: `Close` does not promise to drain; a worker that fails a send after closing stops and its item stays on disk.
- CaptureCheckpoint: stripping of private memory from the stored copy is not modelled; it changes contents of messages, not which are stored.
- RunArchive: a message is its role, its text and whether it has blocks, not the blocks; in-place clipping of the live slice and stripping of private memory are not modelled.
- RelaySpool: the body in memory and the envelope written for it are one report; `EncodingKeepsMeaning` says that what is written says the same.
- RunArchive: how shaping chooses; any shape with distinct origins in range is allowed.
- DesktopSession: the shutdown after the loop ends, the interrupt gesture, earcons, level meters, and a connect that returns both an error and a connection.  Provider sessions report `connecting` and `on_call` only (internal/koe/webrtc.go:942-957); other call states from them are not modelled.
- DesktopSession: the variables the closures share are one value behind one field, so aliasing between them is not modelled.
- HandedOutOnce: the age limit is that at the moment the take read the clock, because at the handout it can fail; `YoungIffStillFresh` is the exact condition.
- ComputerUse: which names are GUI tools and which queries of `tool_search` may load one are attributes of the call; arguments are taken as parsed, in normal form.
- ComputerUse: speculative starts of streamed calls, and the gates after admission (denials, skills, validation, hooks), which can only keep an admitted call from running.
- ToolCompression: how the text format is matched and squeezed is a parameter; results in user-role text are not found by the code either.
- ToolCompression: lengths count characters, also where the code counts bytes of call arguments.
- ReplyPlan: the message built from a batch, mailbox rows and lifecycle events.
- LlmDispatch: calls made by summaries, discovery, forced stops and the final tool-disabled turn are not main-loop dispatches and are not counted.
- FileRestore: the tokens an estimate assigns to a history; the headroom is a parameter.
- RecentReads: the library sort is a selection of the newest, so the order among equal times is any, as it is in the code.
- DeferredTools: the native OpenAI profile, which replaces the list, and the search index.
- PrefixTables: the entries of the tables; the results hold for any.
- Permission and approval policy, prompts, audio, transport, the daemon client and the terminal interface.
