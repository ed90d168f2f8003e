# A model of the node's storage: key-value store, payment ledgers, sweep migration, hex codec

The node keeps everything it must not lose in `FilesystemStore`, a key-value store of one file per
key that any number of threads use at once and that must survive power loss. On top of it the
command line and the event handler keep two ledgers of payments, and a one-time migration hands old
spendable outputs to the sweeper. This project models these four parts and proves what they are for.

**The store, concurrently** (`Directory`, `Names`, `KvSpec`, `StoreMachine`, `StoreLocks`,
`StoreData`, `StoreRefinement`, `StoreTheorems`, `StoreCalls`, `StoreLiveness`, `StoreWitnesses`).
`StoreMachine` runs any number of threads through `read`, `write`, `remove` and `list`, one atomic
action at a time: names are checked, directories made, a temporary file is created, written in pieces
and synced, a lock object is looked up or made under the mutex of the map, waited for, entered, left
and dropped, the file renamed or unlinked, the directory synced, every 25th success starts a
collection of the lock map that goes entry by entry. Any I/O operation may fail, the process may be
killed and the power may go at any time. `Directory` says what a power loss leaves (a kill leaves
everything): any of the directory changes not yet synced, in order, and any bytes at all in a file not
yet synced. `KvSpec` is what callers should see instead: a map, the values each key may have after a
power loss, and calls that take effect at one moment. The refinement is proved step by step for every
interleaving, and the promises are then proved about all executions.

**The store, one call at a time** (`FilesystemStore`). The class with the source's own fields, over
real paths and a tree of files and directories. Which of its I/O operations fail is an input, so each
operation says exactly when it succeeds, and with what error it does not; it is proved against the
value of every key, every other file, and the bound on the lock map.

**The ledgers** (`Payments`, `LedgerMachine`). `Payments` has the records as the program updates them
in place, loops included, with how each save ends as an input; `LedgerMachine` runs the two threads
that share them, each with its own way of holding a mutex across the save, and restarts. Files are
replaced whole, which is what `StoreTheorems.VisibleIsLastWritten` gives for a process that dies, and
`StoreTheorems.CrashIsAtomic` and `StoreTheorems.OkWriteIsDurable` for power loss. A process may die
between the rename and the sync of a save, and a power loss may then undo it. A panic ends the process.

**The migration** (`Sweep`). Moves, concatenation, parse, hand-over and deletions, with the process
dying between any two steps, at points that are an input, and any number of restarts.

**The hex codec** (`Hex`). Base16 as in section 8 of RFC 4648, in lower case, read in either case.

`dafny verify dfyconfig.toml` checks the whole project.

## What turned out not to hold as one might expect

- A write that returns an error may have taken effect (src/filesystem_store.rs:131-133): a crash then
  leaves the old value or the new, and either does happen (`Directory.UnsyncedRenameGoesEitherWay`).
- A key removed lazily, or found absent (150-152), may come back after a power loss, with exactly the
  values it could have had before (`Directory.LazyRemovalCanComeBack`). Only a write, or a removal that
  is not lazy and did unlink, is final once it returns (`StoreTheorems.FlushKeeps`).
- `is_file` and `exists` (150, 201) answer no for what cannot be looked at. So a removal may say Ok with
  the file still there, and a listing may say Ok with no names for a namespace that has keys:
  `StoreWitnesses.RemovalCanMiss` and `StoreWitnesses.ListingCanMiss` are such runs, and
  `StoreTheorems.OkRemovalIsExact` and `StoreTheorems.ListingIsHonest` give the exact conditions.
- Right after a collection the map may still have an entry nobody refers to, whose last handle went
  while the rest was collected: `StoreWitnesses.CollectionCanKeepMore` is such a run. It has just the
  paths that had a handle as the collector came by them (`StoreTheorems.CollectionIsExact`).
- An offer is paid without holding the ledger's mutex across its save (src/cli.rs:209-220). An event
  between the copy and the save is overwritten on disk: `LedgerMachine.OfferUnsettles` is such a run,
  and `LedgerMachine.DiskIsMemory` says, of every run, when disk and memory differ for it.
- A ledger's file that is there but cannot be opened at startup is taken to be empty (src/disk.rs:67-74)
  and saved over: `LedgerMachine.StartKeepsIds` gives the exact condition on a start. What is on disk at
  one moment is there at a later one if every start in between meets it; nothing is asked of the others.
- An id, or an outcome, on disk after a death in the middle of its save may be gone after a power loss
  (`LedgerMachine.HalfSaveCanBeUndone`). One that LDK was asked for may not.
- A payment made again, with the same invoice, wipes out its outcome (`LedgerMachine.PayingAgainUnsettles`).
- A start of the migration that gets to the end has lost outputs if and only if a directory that could
  not be listed at first, and could be deleted later, held some; one that panics, if and only if there
  was, besides, no pending directory; one that dies, only if (`Sweep.DataDir.Migrate`). A process that
  dies between the two last deletions, or that leaves a torn temporary file among the spendable files,
  can never finish: every later start panics (`Sweep.DataDir.StuckIsStuck`, `Sweep.DataDir.Restarts`).

## Model

| member | source | states |
|---|---|---|
| `Names.KeyPathInjective` | src/filesystem_store.rs:48-59 | two valid keys have one path if and only if they are one key, for any data directory |
| `Names.PrimaryRuleNeeded` | src/filesystem_store.rs:338-347 | without the rule that a secondary namespace needs a primary one, two different keys would have one path |
| `Names.KeyRefusal` | src/filesystem_store.rs:315-366 | a key is refused if and only if its name is empty, its primary namespace is empty and its secondary is not, or a part is too long or has a character outside the alphabet; which reason is given, in that order |
| `Names.DirRefusal` | src/filesystem_store.rs:367-390 | the same for a namespace that is to be listed |
| `Names.StemInjective` | src/filesystem_store.rs:315-390 | two valid namespaces have one directory only if they are one namespace |
| `Names.KeyPathSplits` | src/filesystem_store.rs:68-69 | the path of a key is its namespace's directory, a separator, and its name |
| `Names.PathsAre` | src/filesystem_store.rs:48-59 | the three shapes of a key's path, spelled out |
| `Names.DecimalPrints` | src/filesystem_store.rs:115 | numbers print in decimal, digit by digit |
| `Names.DecimalInjective` | src/filesystem_store.rs:115 | numbers that print alike in decimal are equal |
| `Names.TempPathIs` | src/filesystem_store.rs:114-116 | setting the extension of a key's path only adds to it: the key's path, a dot, the number, `.tmp` |
| `Names.ExtensionTells` | src/filesystem_store.rs:224-229 | the extension of a temporary path is `tmp` whatever the number, and that of a key's path is none |
| `Names.TempEntries` | src/filesystem_store.rs:224-229 | an entry is taken for temporary if and only if its name ends in `.tmp` and is longer than that |
| `Names.TempPathInjective` | src/filesystem_store.rs:114-116 | two temporary paths are equal if and only if the keys and the numbers are |
| `Names.TempPathIsNoKey` | src/filesystem_store.rs:310-313 | a temporary path is the path of no valid key |
| `Directory.CreateKeeps` | src/filesystem_store.rs:119 | creating or truncating a temporary file keeps the directory sound and changes no key, now or after any crash |
| `Directory.TempBytesChange` | src/filesystem_store.rs:120-121 | writing a temporary file changes no key, visible or possible |
| `Directory.RenameInstalls` | src/filesystem_store.rs:131 | renaming a complete, synced temporary file changes one key to its bytes, adds just that to what the key may be after a crash, and leaves no inode with two owners |
| `Directory.RemoveDeletes` | src/filesystem_store.rs:163-168 | unlinking makes one key absent, adds just absence to what it may be after a crash |
| `Directory.SyncDirSettles` | src/filesystem_store.rs:132-133 | after a directory sync a crash can leave each key only as it is seen |
| `Directory.KeptIsPossible` | src/filesystem_store.rs:109-113 | whatever subset of queued changes survives, each entry is one it was, or was made, and no inode survives under two names |
| `Directory.CrashIsPossible` | src/filesystem_store.rs:109-113 | after any crash each key reads as one of the values it may have, whole, and that is then its only one |
| `Directory.EveryPossibilityHappens` | src/filesystem_store.rs:109-113 | the values a key may have after a crash are exactly those some crash does leave |
| `Directory.UnsyncedRenameGoesEitherWay` | src/filesystem_store.rs:131-133 | when the sync after a rename fails, a crash leaves a value if and only if it is the new one or could have been left before |
| `Directory.UnsyncedFileTears` | src/filesystem_store.rs:119-131 | bytes written and not synced can, once renamed over a key, come back after a power loss as any bytes at all: why the file is synced first |
| `Directory.SyncedFileIsWhole` | src/filesystem_store.rs:119-133 | with the file synced before the rename and the directory after it, every power loss leaves the key those bytes |
| `Directory.LazyRemovalCanComeBack` | src/filesystem_store.rs:161-163 | after an unsynced unlink a crash leaves a value if and only if it is absence or could have been left before |
| `KvSpec.KvIsLastEffect` | src/filesystem_store.rs:62-222 | in the specification, without crashes, a key has what its last change made it |
| `KvSpec.ReadReturnsLastWrite` | src/filesystem_store.rs:63-86 | in the specification a read returns the buffer of the last write applied to its key |
| `KvSpec.SettleSettles` | src/filesystem_store.rs:132-135 | in the specification a sync leaves a key of its namespace no value but its own to come back with |
| `KvSpec.CrashGivesRecentValue` | src/filesystem_store.rs:109-113 | in the specification a crash gives a key a value it had since it was last settled |
| `KvSpec.ValuesAreWritten` | src/filesystem_store.rs:109-113 | in the specification a key never has, nor may have after a crash, bytes that no write of it was given whole |
| `KvSpec.SettledEndures` | src/filesystem_store.rs:129-139 | in the specification a settled key keeps its value through other keys' changes and crashes |
| `KvSpec.ListIsRegular` | src/filesystem_store.rs:193-221 | a listing during changes names each key at most once, none that was never there, and all that were there and untouched |
| `KvSpec.ListIsExact` | src/filesystem_store.rs:193-221 | a listing of a namespace nothing touches meanwhile names exactly its keys, each once |
| `StoreLocks.OneLockPerPath` | src/filesystem_store.rs:73-77 | two handles are to one lock object if and only if they are for one path, and it is the one in the map |
| `StoreLocks.Exclusion` | src/filesystem_store.rs:125-129 | two threads inside the lock of one path are both readers |
| `StoreLocks.VisitIsExact` | src/filesystem_store.rs:36-46 | the collector keeps an entry if and only if some thread has a handle for its path, and touches no other |
| `StoreLocks.GetLockKeeps` | src/filesystem_store.rs:125-128 | looking up or making a lock keeps the locking invariant |
| `StoreLocks.LockStepKeeps` | src/filesystem_store.rs:155-159 | entering, leaving and dropping a lock keep the locking invariant |
| `StoreLocks.VisitKeeps` | src/filesystem_store.rs:43-44 | dropping unreferenced entries keeps the locking invariant |
| `StoreLocks.LocksKept` | src/filesystem_store.rs:36-46 | every action of every thread keeps the locking invariant |
| `StoreData.CreateTempOk` | src/filesystem_store.rs:118-119 | creating a temporary file disturbs nothing any thread relies on, a leftover of the same name included |
| `StoreData.FillOk` | src/filesystem_store.rs:119-121 | writing and syncing a temporary file: the file of a write is complete and synced when it asks for the lock |
| `StoreData.InstallOk` | src/filesystem_store.rs:131 | the rename under the lock disturbs no reader of any key, and sets the key to the write's whole buffer |
| `StoreData.DeleteOk` | src/filesystem_store.rs:163-168 | the unlink under the lock disturbs no reader, and makes just its key absent |
| `StoreData.SyncOk` | src/filesystem_store.rs:132-133 | the sync changes nothing seen and settles every key of the directory |
| `StoreData.ActionInv` | src/filesystem_store.rs:62-222 | every action keeps the invariant on locks, files, temporary numbers and what each point of each call knows |
| `StoreData.CrashInv` | src/filesystem_store.rs:109-113 | so does a power loss, counters back at their start over whatever the disk holds |
| `StoreData.KillInv` | src/filesystem_store.rs:24-29 | so does a kill, which resets counters and locks and leaves the files as they are, temporary ones included |
| `StoreData.ExecutionInv` | src/filesystem_store.rs:24-29 | the invariant holds in every state of every execution |
| `StoreRefinement.LookupIsVisible` | src/filesystem_store.rs:71-81 | the value of a key in the specification is what a process reads at its file |
| `StoreRefinement.WriteRefines` | src/filesystem_store.rs:94-123 | up to its rename a write is a stutter of the specification |
| `StoreRefinement.InstallRefines` | src/filesystem_store.rs:131 | the rename is the moment a write takes effect, with its whole buffer |
| `StoreRefinement.DeleteRefines` | src/filesystem_store.rs:161-168 | an unlink that finds the file is the moment a removal takes effect |
| `StoreRefinement.RemoveQuietRefines` | src/filesystem_store.rs:150-152 | finding no file, before the lock or under it, is an answer about an absent key; not being able to look is an oversight, answered Ok whatever there is |
| `StoreRefinement.SyncRefines` | src/filesystem_store.rs:132-139 | the directory sync settles the keys of its namespace, and their map stays the same |
| `StoreRefinement.ReadRefines` | src/filesystem_store.rs:77-85 | a read answers with the key's value at the moment it reaches the end of the file |
| `StoreRefinement.ListRefines` | src/filesystem_store.rs:201-220 | each step of a scan is one of a regular scan of the map's keys; finding no directory is an answer about a namespace without keys; not being able to look is an oversight, answered with no names |
| `StoreRefinement.CrashRefines` | src/filesystem_store.rs:109-113 | a power loss is a crash of the specification: each key gets a value it may have, every call is gone |
| `StoreRefinement.KillRefines` | src/filesystem_store.rs:24-29 | a kill is a restart of the specification: no key changes, nor what it may be after a power loss |
| `StoreRefinement.StepRefines` | src/filesystem_store.rs:62-222 | every step of the concurrent store, failed looks, kills and power losses included, is a step of the specification |
| `StoreTheorems.ExecutionRefines` | src/filesystem_store.rs:62-222 | every execution, from any state on, is a run of the specification |
| `StoreTheorems.ReadIsCurrent` | src/filesystem_store.rs:79-80 | the bytes a read has put together are its key's value at that moment, though writes rename under other keys meanwhile |
| `StoreTheorems.VisibleIsLastWritten` | src/filesystem_store.rs:131 | without power loss, over any failures and kills, a key has at every moment the whole buffer of the last write renamed to it, or nothing since the last unlink |
| `StoreTheorems.ReadReturnsLastWritten` | src/filesystem_store.rs:71-81 | without power loss every successful read returns the complete buffer of the last write renamed to its key |
| `StoreTheorems.CrashIsAtomic` | src/filesystem_store.rs:109-113 | after a power loss at any step a key is absent, or as it might have been at the start, or the whole buffer of one write of it renamed by then: never torn, never mixed |
| `StoreTheorems.CrashIsRecent` | src/filesystem_store.rs:109-113 | after a power loss a key has a value it really had at some moment since its directory was last synced |
| `StoreTheorems.SyncedEndures` | src/filesystem_store.rs:129-139 | once its directory is synced a key keeps its value through any number of power losses until the next rename or unlink at its own path |
| `StoreTheorems.OkMeansSynced` | src/filesystem_store.rs:124-139 | a write that says Ok has synced its directory in that very call: it has had its Ok from that sync on |
| `StoreTheorems.SyncSeesEffect` | src/filesystem_store.rs:129-135 | at the sync the key is as its write or removal made it: nobody got in between |
| `StoreTheorems.OkWriteIsDurable` | src/filesystem_store.rs:109-113 | from the sync that brought a write its Ok, all read its buffer, across kills and power losses, until another rename or unlink at its path |
| `StoreTheorems.FlushKeeps` | src/filesystem_store.rs:165-184 | so has a removal that is not lazy and did unlink |
| `StoreTheorems.RemovalIsHonest` | src/filesystem_store.rs:150-184 | the step that brings a removal its Ok leaves the key absent if and only if it was not a failed look, or the key was absent |
| `StoreTheorems.OkRemovalIsExact` | src/filesystem_store.rs:142-191 | in every execution a removal's Ok came at one step of that very call, after which the key was absent if and only if that step was not a failed look, or the key was absent; one that synced stays so |
| `StoreTheorems.ListingIsHonest` | src/filesystem_store.rs:201-203 | a listing gets its names from a finished scan, or has none for want of a directory or of a look at it, and no names is then the truth if and only if there was no directory or no key |
| `StoreTheorems.ListIsExactly` | src/filesystem_store.rs:193-221 | a listing whose namespace nothing changes names exactly the keys with a value there, each once; no temporary file, leftovers of crashes included |
| `StoreTheorems.TempPathsDiffer` | src/filesystem_store.rs:114-116 | in one instance no two writes, of whatever keys, are ever given one temporary path |
| `StoreTheorems.TempIsNoKeyFile` | src/filesystem_store.rs:24-29 | a temporary file, even one a restarted counter names and truncates again, shares its inode with no key, now or after a crash |
| `StoreTheorems.NoTwoWriters` | src/filesystem_store.rs:125-129 | in every state of every execution two threads inside the lock of a path are both readers |
| `StoreTheorems.HandlesAgree` | src/filesystem_store.rs:73-76 | in every state of every execution all handles for a path are to the one lock the map has |
| `StoreTheorems.CollectedSoFar` | src/filesystem_store.rs:43-44 | during a collection an entry not come by yet is there, and one come by is there if and only if some call had a handle to it at that step |
| `StoreTheorems.CollectionIsExact` | src/filesystem_store.rs:36-46 | when a collection ends the map has a path if and only if some call had a handle for it at the step the collector came by; so it has every path with a handle |
| `StoreWitnesses.RemovalCanMiss` | src/filesystem_store.rs:150-152 | an execution in which a removal says Ok and the key reads as before |
| `StoreWitnesses.ListingCanMiss` | src/filesystem_store.rs:201-203 | an execution in which a listing says Ok with no names and the namespace has a key |
| `StoreWitnesses.CollectionCanKeepMore` | src/filesystem_store.rs:36-46 | an execution from a new store, of 25 counted calls, in which a collection ends with an entry nobody has a handle for |
| `StoreCalls.CallBegins` | src/filesystem_store.rs:66-96 | a call is refused, before it does anything, if and only if its names are, and for the reason they are |
| `StoreCalls.ErrorsAreHonest` | src/filesystem_store.rs:71-220 | no call has NotFound but where its key had no file at that step, and no other error but of an I/O operation that failed, or of a key's file gone as it was being listed |
| `StoreCalls.AnyIoCanFail` | src/filesystem_store.rs:62-222 | whatever a call asks of the file system can fail at that point, and the call has then failed with the files as they were |
| `StoreCalls.SuccessIsCounted` | src/filesystem_store.rs:83-84 | a call on its way back with a success has been counted, unless there was nothing to remove or to list; one with an error has not |
| `StoreCalls.FailuresAreNotCounted` | src/filesystem_store.rs:36-38 | in every execution only successes get to the counter and to a collection |
| `StoreCalls.CounterCounts` | src/filesystem_store.rs:36-38 | in every execution the counter is one more than the successes counted since the process last began |
| `StoreCalls.EveryTwentyFifth` | src/filesystem_store.rs:36-42 | of the successes since the process began each 25th goes on to collect locks, and no other |
| `StoreCalls.RestartIsNew` | src/filesystem_store.rs:24-29 | after a kill or a power loss the state is that of a new store over whole files, so that what holds of executions holds from there on; a kill changes no file |
| `StoreLiveness.RunnerGoesOn` | src/filesystem_store.rs:62-222 | a thread that waits for no lock can always take its next step |
| `StoreLiveness.NoDeadlock` | src/filesystem_store.rs:73-77 | in every execution, while any call is in progress some thread can go on |
| `FilesystemStore.EntryIsKeyFile` | src/filesystem_store.rs:224-313 | an entry `list` accepts is the file of a valid key of the namespace, and every such file is accepted |
| `FilesystemStore.FilesystemStore.constructor` | src/filesystem_store.rs:24-29 | a new store: no locks, the counters at 0 and 1, over whatever the directory holds |
| `FilesystemStore.FilesystemStore.GarbageCollectLocks` | src/filesystem_store.rs:36-46 | every 25th call empties the map of locks nobody refers to; the bound on its size holds after |
| `FilesystemStore.FilesystemStore.Read` | src/filesystem_store.rs:63-86 | refused for just the names the source refuses; otherwise Io if and only if the open fails or a directory is there, NotFound if and only if it does not and nothing is there, and the whole value if and only if there is one; a success is counted, a failure leaves at most one lock behind |
| `FilesystemStore.FilesystemStore.CreateDirs` | src/filesystem_store.rs:107 | succeeds if and only if no I/O operation fails and no file is in the way; adds only directories on the way to the namespace, and changes no file |
| `FilesystemStore.FilesystemStore.FillTemp` | src/filesystem_store.rs:118-122 | succeeds if and only if no I/O operation fails and no directory is there, the temporary file then holding the whole buffer; on failure only that file has changed |
| `FilesystemStore.FilesystemStore.Install` | src/filesystem_store.rs:124-139 | the rename is done, whole, if and only if it does not fail and no directory is there; an error of the sync after it leaves it done |
| `FilesystemStore.FilesystemStore.Write` | src/filesystem_store.rs:94-140 | refused for just the names the source refuses, changing nothing; otherwise Ok if and only if no I/O operation fails and nothing is in the way; Ok means the key has the buffer, a new number was drawn and its temporary file is gone; an error, that it has its old value or the buffer; no other file changes but the temporary one |
| `FilesystemStore.FilesystemStore.Uninstall` | src/filesystem_store.rs:154-188 | Ok if and only if neither the unlink nor, when not lazy, the sync fails; the file is gone if and only if the unlink did not fail |
| `FilesystemStore.FilesystemStore.Remove` | src/filesystem_store.rs:142-191 | refused for just the names the source refuses; of a key with a file that can be looked at, Ok if and only if neither the unlink nor, when not lazy, the sync fails, and the key is absent if and only if the unlink does not; of any other, Ok at once with nothing changed; no other file changes |
| `FilesystemStore.FilesystemStore.ScanEntries` | src/filesystem_store.rs:205-216 | the loop over a directory in any order gathers each key file once, no temporary file, no directory; if no I/O operation fails it succeeds if and only if every other file has a valid name |
| `FilesystemStore.FilesystemStore.List` | src/filesystem_store.rs:193-221 | refused for just the names the source refuses; a listing names each key once, and is exactly the valid keys with a value in the namespace if and only if the directory was looked at or there are none; a missing directory lists as empty and is not counted; if no I/O operation fails the only errors are of a file in the directory's place or a file with an invalid name |
| `Hex.ToVec` | src/hex_utils.rs:5-24 | succeeds if and only if every character is one of `0` to `9`, `a` to `f`, `A` to `F`; each byte is then 16 times the first digit of its pair plus the second, an odd last digit dropped |
| `Hex.HexStr` | src/hex_utils.rs:27-33 | gives for each byte in order the lower-case digit of its upper four bits and of its lower four |
| `Hex.RoundTrip` | src/hex_utils.rs:5-33 | reading what was printed gives the bytes back, for every byte string |
| `Hex.DecodeLength` | src/hex_utils.rs:5-24 | reading gives half as many bytes as digits, rounded down |
| `Hex.EncodeLength` | src/hex_utils.rs:27-33 | printing gives two digits for each byte |
| `Hex.Normalizes` | src/hex_utils.rs:5-33 | printing what was read gives the input in lower case without an odd last digit |
| `Hex.DecodeSame` | src/hex_utils.rs:5-24 | two strings read alike if and only if their full pairs are the same, case aside |
| `Payments.SavedIsFound` | src/disk.rs:58-74 | recovering a saved ledger gives that ledger |
| `Payments.ReconcileKeeps` | src/main.rs:990-1000 | reconciliation keeps ids, amounts, secrets, preimages and every status but Pending, and leaves pending just what was pending and is recent |
| `Payments.ReconcileIdempotent` | src/main.rs:990-1000 | reconciling again with the same list changes nothing |
| `Payments.SuccessKeepsPreimages` | src/main.rs:335-354 | marking a payment sent keeps the rule that what succeeded has a preimage and what is pending has none |
| `Payments.ReconcileKeepsPreimages` | src/main.rs:990-1000 | so does reconciliation |
| `Payments.Records.constructor` | src/main.rs:974-979 | each ledger at startup is what its file decodes to, and empty if the file is missing, cannot be opened or does not decode |
| `Payments.Records.ReconcileAtStartup` | src/main.rs:990-1003 | the loop in any order leaves every record as it was but for those pending and not recent, which have failed; the ledger is then saved |
| `Payments.Records.Submit` | src/cli.rs:789-819 | record, save, ask, and on a rejection mark failed and save: for every way the saves end and LDK answers, what the call answers, the record in memory and on disk field by field, and that LDK is asked only with the record on disk |
| `Payments.Records.SendPayment` | src/cli.rs:753-820 | refuses exactly the invoices the source refuses, changing nothing; otherwise the record has no preimage, the invoice's secret and amount, and is pending, or failed once rejected; in memory and on disk nothing else is new; the outcome is exact for every way the saves end |
| `Payments.Records.Keysend` | src/cli.rs:822-861 | records a spontaneous payment in the same way, with no secret and the amount given |
| `Payments.Records.GetInvoice` | src/cli.rs:334-346 | an invoice that was made is recorded as pending, with its secret, the amount asked for and no preimage; the ledger is saved in any case |
| `Payments.Records.OnClaimed` | src/main.rs:293-330 | the record of a claimed payment has the preimage and the secret of the event, is succeeded, and keeps its amount, or has the one claimed if it is new; no other record changes |
| `Payments.Records.OnSent` | src/main.rs:331-356 | the loop gives the one payment of that id its preimage and makes it succeeded, its secret and amount and all other records as they were; an event without an id ends the process at the first payment |
| `Payments.Records.OnFailed` | src/main.rs:408-413 | a failed payment that is known has its status changed and nothing else; the ledger is saved in any case |
| `LedgerMachine.ReplayChangesNothing` | src/main.rs:293-414 | an event delivered again changes nothing more, so a crash between handling and saving one is made good by its replay |
| `LedgerMachine.HappensAs` | src/main.rs:293-414 | what each event does to the record of its payment, field by field, and that it does nothing else |
| `LedgerMachine.EventsCommute` | src/main.rs:293-414 | events of different payments give the same ledger in either order |
| `LedgerMachine.IdsKept` | src/cli.rs:209-225 | every step, over any starts, kills, power losses and stale copies, keeps: memory and any copy of it have every id on disk while the node is up, and an id is on disk when it is asked for |
| `LedgerMachine.ExecutionInv` | src/main.rs:974-1003 | the invariant on mutexes, files, ids and preimages holds in every state of every execution |
| `LedgerMachine.GivenStays` | src/cli.rs:209-237 | at every point of a paying call, in every execution, memory, copy and disk have the payment as the call was given it; unless it is an offer's, nothing else has changed in the ledger |
| `LedgerMachine.PaidAsGiven` | src/cli.rs:789-819 | in every execution the record on disk when LDK is asked has the secret and the amount the call was given; for a call that holds the mutex, disk is the ledger it began with and this one record, pending, and after a rejection failed |
| `LedgerMachine.MadeAsGiven` | src/cli.rs:334-346 | in every execution an invoice is on disk, once saved, with the secret and the price it was made with, and nothing else is new there |
| `LedgerMachine.EventReachesDisk` | src/main.rs:293-414 | in every execution, once an event is saved the disk is the ledger as it was when the event was delivered with just the event done to it, whatever calls there were meanwhile |
| `LedgerMachine.StartFinds` | src/main.rs:974-1000 | a start has in memory what the files decode to, empty if they cannot be opened or do not decode, with just the pending payments that are not recent failed |
| `LedgerMachine.NobodyIsStuck` | src/cli.rs:209-237 | in every execution a handler that has a mutex can go on, and the command line waits for nothing but the handler, and only to begin a call or to copy the ledger for an offer |
| `LedgerMachine.FilesComeFrom` | src/cli.rs:209-220 | at every step the outbound file, and each it may be after a power loss, is one that may have come back before or one a thread was in the middle of saving |
| `LedgerMachine.StartKeepsIds` | src/disk.rs:67-74 | a start keeps on disk the ids that are there if and only if it can open the outbound file or that had none |
| `LedgerMachine.IdsGrow` | src/cli.rs:209-220 | without power loss the set of ids on disk only grows, across kills, restarts and offers, as long as each start in between can open the file or finds nothing in it |
| `LedgerMachine.IdStays` | src/cli.rs:209-220 | under the same condition on starts, an id that no power loss could take off the disk stays so, power losses included |
| `LedgerMachine.SureIsExact` | src/main.rs:974-979 | an id is out of reach of a power loss if and only if no power loss now leaves a ledger without it |
| `LedgerMachine.HalfSaveCanBeUndone` | src/cli.rs:798 | an execution in which an id is on disk after a death in the middle of its save and gone after a power loss; it was never asked for |
| `LedgerMachine.WriteAhead` | src/cli.rs:789-806 | in every execution an id is on disk, where no power loss can take it away, when LDK is asked to pay it, whatever way it is paid; it is there ever after as long as each start since can open the file |
| `LedgerMachine.DiskIsMemory` | src/cli.rs:209-220 | with its mutex free the inbound ledger is on disk as in memory if and only if the last start could open its file, or had nothing to lose there, or it was saved since; the outbound one, no offer under way, if and only if the last save was not of an offer's copy taken of another ledger than memory had at that save |
| `LedgerMachine.OutStep` | src/main.rs:334-356 | a step after which no outbound save is due either saved the ledger or changed neither disk nor memory |
| `LedgerMachine.DiskIsMemoryWithoutOffers` | src/cli.rs:231-237 | in runs without offers the outbound ledger is on disk as in memory whenever its mutex is free |
| `LedgerMachine.PreimagesAlwaysOk` | src/main.rs:334-356 | in every reachable ledger, in memory, on disk and in an offer's copy, over any starts, Succeeded has a preimage and Pending has none |
| `LedgerMachine.StatusMovesOnce` | src/main.rs:331-356 | if ids are paid once, not by offers, and LDK agrees with itself, a status on disk goes once from Pending to the payment's outcome and never changes again, as long as each start in between can open the file: without power loss any, with power loss any that no power loss could take away at first |
| `LedgerMachine.UpIsSure` | src/cli.rs:798 | while the node is up all that is on disk, ids and outcomes, is out of reach of a power loss |
| `LedgerMachine.PayingAgainUnsettles` | src/cli.rs:789-797 | recording a payment over another keeps its outcome if and only if it had none yet |
| `LedgerMachine.OfferUnsettles` | src/cli.rs:218-220 | an execution in which the stale copy of an offer puts a succeeded payment back to pending on disk |
| `Sweep.ParseConcat` | src/sweep.rs:60-64 | files of descriptors put end to end parse as their lists put end to end, and fail to if the rest does |
| `Sweep.ParseWritten` | src/sweep.rs:81-91 | any list of descriptors, written one after another, is read back as it was |
| `Sweep.HexNamesMove` | src/sweep.rs:44-46 | the files to move are those whose name has the length of 32 bytes in hex, with what they hold, and no others |
| `Sweep.ItemsWritten` | src/sweep.rs:81-91 | a file to which descriptors were written holds just those, as often as they were written |
| `Sweep.TotalWithout` | src/sweep.rs:61-63 | the descriptors of a directory do not depend on the order its files come in |
| `Sweep.TotalsHave` | src/sweep.rs:39-96 | whoever has the descriptors of the three directories has all that was written to any pending file of a 64-character name, any processing file, and any spendable file |
| `Sweep.MovingKeepsTotal` | src/sweep.rs:42-53 | however far the moving has come, every descriptor is in one of the two directories, as often as before |
| `Sweep.Tally` | src/sweep.rs:79-96 | what is kept by a start that gets to the end is all of it if and only if what could not be listed held nothing |
| `Sweep.Deleted` | src/sweep.rs:79-95 | deleting the spendable files keeps all if and only if they were listed or held nothing |
| `Sweep.DataDir.MoveAside` | src/sweep.rs:39-53 | moves the files with 64-character names and no other, keeps every descriptor wherever it dies |
| `Sweep.DataDir.Concatenate` | src/sweep.rs:56-64 | the bytes put together are empty if and only if all files are, and parse as all their descriptors |
| `Sweep.DataDir.PackUp` | src/sweep.rs:60-70 | one new spendable file holds all that was in processing, and only then is processing deleted |
| `Sweep.DataDir.ReadFile` | src/sweep.rs:79-91 | the loop reads exactly the descriptors of the file, or fails if it is not made of descriptors |
| `Sweep.DataDir.ReadSpendables` | src/sweep.rs:76-93 | reads the descriptors of every file, in any order, if and only if every file is made of descriptors |
| `Sweep.DataDir.Track` | src/sweep.rs:93-96 | what was read is with the sweeper before any file is deleted |
| `Sweep.DataDir.Consolidate` | src/sweep.rs:39-70 | the whole first half, for directories that can or cannot be listed: what it moves, what it packs, what it keeps when it dies |
| `Sweep.DataDir.HandOver` | src/sweep.rs:72-96 | gets to the end if and only if both directories are there and all files parse, the sweeper then having exactly what was spendable; wherever it stops it keeps all if nothing deleted unread held any; exactly when a panic loses some |
| `Sweep.DataDir.StuckIsStuck` | src/sweep.rs:95-96 | a stuck migration has something to do at every start and cannot finish it |
| `Sweep.DataDir.StuckOrNot` | src/sweep.rs:95-96 | with a pending directory, an undisturbed start finishes if and only if the migration is not stuck |
| `Sweep.DataDir.Migrate` | src/sweep.rs:21-103 | it dies if and only if the process is stopped on the way; wherever it stops, no descriptor is lost if what could not be listed held none, and the converse for a finish, and for a panic with no pending directory; not stopped, it finishes if and only if pending exists, spendable exists or there was something to pack, and all parses; finished, the sweeper got exactly the multiset of all three directories, so all that was written to any pending file with a name of 64 characters, any processing file and any spendable file |
| `Sweep.DataDir.Restarts` | src/sweep.rs:21-103 | over any number of starts, each with its own directories seen and listable, nothing is lost as long as what each could not list held nothing; once one that can list all finishes, the sweeper has all there was; a stuck migration stays so and never finishes while the spendable files are listed |

## Left out

- LDK, BDK and the wallet: what they decide (accept or reject a payment, the recent-payments list, outcomes, whether the sweeper takes charge) is chosen freely at each step.
- The encodings of ledgers and descriptors (TLV macros): parameters, of which only the laws `Payments.RoundTrips`, `Sweep.SelfDelimiting` and `Sweep.ReadsBack` are used.
- `KVSTORE_NAMESPACE_KEY_ALPHABET` and `KVSTORE_NAMESPACE_KEY_MAX_LEN` are LDK's and not part of this repository: parameters, with neither separator in the alphabet.
- Two store instances over one directory (src/main.rs:695, 1051): each numbers its temporary files from 0 and has locks of its own, so the store's theorems are about one instance. In `LedgerMachine` a save is one step, which leaves out an offer's save meeting an event's save, through the other instance, on one temporary file.
- Lock poisoning and wrap-around of the two counters: a panic ends the process, and counters are unbounded.
- The file system: rename is atomic, a successful fsync puts on disk all changes queued before it, one that fails leaves them queued, the entry of a namespace directory in its parent is durable once made (`create_dir_all` syncs no parent), inode numbers are not used again before a restart.
- The directory stream: a scan never yields one name twice, not even of a file replaced or made anew meanwhile, and yields every entry that is there throughout.
- `StoreMachine`: a namespace directory holds only files (sub-directories, and a directory in a key's place, are in the class `FilesystemStore`); looking a lock up or making it is one step, as the mutex is held for nothing else.
- Debug builds, where a refused name or an odd directory entry panics (`debug_assert!`) instead of being an error.
- FilesystemStore.FilesystemStore.Write: does not speak of power loss or of other threads, which `StoreTheorems` does.
- Sweep: power loss, since the moves at src/sweep.rs:51 are never synced; a process that dies is modelled at every step.
- Sweep: names are assumed not to clash (no pending file is named as one already in processing, the key drawn for the spendable file is new), and no new pending files appear while it runs.
- Sweep: pending and processing files are assumed to hold whole descriptors; spendable files may hold anything.
- LedgerMachine.DiskIsMemory: says nothing of an offer still between its record and its save, when the disk is not meant to have it yet.
- LedgerMachine.FilesComeFrom: a sync settles one ledger's file only, though both are in one directory, so more may come back than really can.
- `read_channel_peer_data` and `persist_channel_peer` (src/disk.rs:22-45), `to_compressed_pubkey`: easy, or a matter of libraries.
- Announcing a zero-amount invoice after LDK took it (src/cli.rs:809) panics: it is an aborted call in `Payments.Records.SendPayment`, a death in `LedgerMachine`.
- The command line's parsing, RPC, fee estimation, networking, logging and printing.
