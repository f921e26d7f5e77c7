# A verified model of the file storage server

The repository is a file storage server kept in memory: clients connect over a local socket and
open, lock, read, write, append, close and delete files; a fixed pool of worker threads serves
them; when memory is short a write or append evicts one file and sends it to the client. This
project models the server, the client's half of each exchange and the data structures under them,
and proves what they promise.

## How the model is built

| layer | files | what it is |
|---|---|---|
| the table as values | `Files.dfy` | what each storage function computes on the list of files, from head to tail |
| what a table change means | `EventLog.dfy`, `LogTheorems.dfy`, `Operations.dfy` | an independent reference: events on an insertion-ordered map, when each is legal, and what every legal log has; each request is proved to be at most one eviction and one event of its own path |
| the heap | `LinkedQueue.dfy`, `FileServer.dfy`, `MachineInts.dfy`, `ReadData.dfy` | linked nodes behind a sentinel, file nodes and buffers changed in place, `int` and `size_t` arithmetic; each method is proved to do what the function of the same name in `Files.dfy` does |
| the threads | `Server.dfy` and `Server*.dfy`, `CreateThenWrite.dfy`, `SoloRuns.dfy`, `WitnessRuns.dfy` | a transition system with one step per mutex operation, wait, signal, broadcast or access to shared data, for any number of workers and any schedule |
| the wire | `Exchange.dfy`, `ExchangeProofs.dfy`, `FileList.dfy` | the client's and the controller's programs over two byte streams, and the comma-joined file list |

`dafny verify dfyconfig.toml` checks the whole project. The layers meet in `Files.dfy`: the threads use its functions as the effect of their critical
sections, the heap classes are proved against them, and the exchange takes its verdicts from them, or for appends from the machine arithmetic beside them.

## Places modelled as they are meant

- A worker woken from `file_lock_cond` gives `file_lock_mutex` back, takes `file_queue_mutex` and then
  `file_lock_mutex`, and tests again. The code tests again without the queue mutex, which it then
  releases all the same (`src/server/controller.c:18-24`, `302-310`).
- The two early returns of `src/server/controller.c:182-188` and `382-388` release the queue mutex.
- An append copies the new bytes to offset `file->size`; the code uses the length of the new bytes
  (`src/server/fileStorage.c:410`).
- `expelFile` answers null when no file qualifies, and the controllers then answer -1; the code
  leaves the result unset and the null branch empty (`src/server/utils.c:113-126`,
  `src/server/controller.c:67`, `197`).
- `closeVirtualFile` answers 0 on success, where the code leaves `status` unset
  (`src/server/fileStorage.c:592-595`).
- The connection queue holds descriptors, not the address of one shared variable
  (`src/server/server.c:164`).
- `readData` of zero bytes returns a variable it never set (`src/server/utils.c:192-200`); its value is
  named `unset`. On the server it matters for one request, the lock holder's write of no bytes, which
  at -1 stores nothing and gets no answer (`Files.Served`); the client has the same loop, so a read of an
  empty file fails there at -1. The threads, the heap and the wire all carry it.

## What is asked of callers

Client ids are not 0 (0 means unlocked). The machine arithmetic asks for a memory limit of at most
2^31-1. The code checks the size of writes only; the runs of the thread model ask for appends of a
sound size (`MachineInts.SoundSize`), for which the code's arithmetic chooses as the model does
(`ServerTheorems.RoomIsTheMachines`). The heap's append and the exchange take appends of any size, as
the machine carries them out (`Operations.Carried`), and
`Operations.AppendKeepsLimitIff` says exactly which sizes keep the memory limit. Paths are nonempty.
`max_file` is not negative.

## What the proofs found

Each of these fails for the inputs of the lemma named last.

- Three steps strand a worker that waits for a lock, and no others do: the owner's delete or close of
  the file, and its eviction. None of them wakes anybody (`ServerWakeup.StrandedOverRuns`; a whole run
  that ends this way, from the start of the server on, is in `WitnessRuns.DeleteStrandsWaiter`).
- Shutdown does not help such a worker: the signal thread's second broadcast goes to
  `file_queue_cond`, on which nobody ever sleeps (`ServerWakeup.ShutdownLeavesLockWaiters`).
- The mutexes never deadlock, but a worker receives its client's bytes with the queue mutex held, so
  the server stands still while that client owes them (`ServerTheorems.NoDeadlockOverRuns`).
- A lock holder's write can evict the very file it writes, and then fails
  (`Operations.HolderWriteFailsIff`, `Operations.OwnFileEvicted`). A file just created cannot be lost
  this way: it is empty and brings no room (`CreateThenWrite.CreateThenWriteSucceeds`).
- A lock holder's write of an empty file leaves the client waiting for a status that is never sent if
  the unset variable happens to be -1. Once the server has reached its verdict no other exchange fails
  to end; the one it may never reach is the wait of the first item
  (`ExchangeProofs.RestIsTheEnd`, `ExchangeProofs.HangsExactly`, `ExchangeProofs.EmptyWriteHangs`).
- The client's calls for lock, unlock, close and delete return success whatever happened, and the read
  of an empty file returns failure if the unset variable happens to be -1; the client is told the truth
  exactly under the condition of `Exchange.ToldRight` (`ExchangeProofs.ToldIsOutcomeIff`,
  `Exchange.FailedDeleteIsToldAsSuccess`, `ExchangeProofs.EmptyReadIsToldAsFailure`).
- An append larger than the memory can evict a file, find no room and be stored all the same, exactly
  when narrowing its size to `int` gives a value the memory holds and there can be two files
  (`Operations.AppendKeepsLimitIff`, `Operations.AppendBreaksLimit`).
- A closed file is never opened again and stays, with its owner, until it is evicted
  (`LogTheorems.ClosedForGood`).

## Model

| member | source | states |
|---|---|---|
| LinkedQueue.Queue.constructor | src/server/queue.c:8-22 | a new queue is empty, its chain the sentinel alone |
| LinkedQueue.Queue.Push | src/server/queue.c:24-40 | the element joins at the end, all earlier nodes stay, the answer is the new length, chain, tail and length stay consistent |
| LinkedQueue.Queue.Pop | src/server/queue.c:42-64 | the first element leaves and is answered, the rest keeps its nodes and order, the tail returns to the sentinel when the queue empties |
| LinkedQueue.Queue.Remove | src/server/fileStorage.c:156-187 | exactly the first node that carries the element is unlinked, anywhere in the chain; -1 and no change when there is none |
| LinkedQueue.Queue.Unlink | src/server/fileStorage.c:169-180 | relinking around one node keeps the chain acyclic, ended by the tail, and its length right |
| FileServer.FileServer.GetFileNode | src/server/fileStorage.c:71-93 | null exactly when no file has the name, otherwise the first node with it |
| FileServer.FileServer.GetStorageSize | src/server/fileStorage.c:139-153 | the sum of all sizes as `int` plus `size_t` additions give it |
| FileServer.FileServer.GetFreeSpace | src/server/utils.c:88-107 | the memory limit less that sum, in `int` |
| FileServer.FileServer.ExpelFile | src/server/utils.c:109-128 | the first node in creation order that passes the machine's victim test, null when none does |
| FileServer.FileServer.RemoveNode | src/server/fileStorage.c:156-187 | the node and its file leave chain and table, all others stay as they are; -1 and no change when the node is not linked |
| FileServer.FileServer.OpenVirtualFile | src/server/fileStorage.c:189-264 | answer and table as in the specification for every combination of flags; the file-count mark rises exactly when a creation exceeds it |
| FileServer.FileServer.ReadVirtualFile | src/server/fileStorage.c:266-307 | success exactly for an open file that is there; the buffer is a fresh copy of its bytes |
| FileServer.FileServer.WriteVirtualFile | src/server/fileStorage.c:309-361 | an open file gets the bytes, one that is missing or closed gives -1; the storage mark rises to the new total but for a closed file |
| FileServer.FileServer.AppendVirtualFile | src/server/fileStorage.c:363-433 | the bytes follow the old ones, or are the whole contents when there was no buffer; errors and mark as for a write |
| FileServer.FileServer.LockVirtualFile | src/server/fileStorage.c:435-478 | -1 for a missing or closed file, 0 for the owner or a free file, which gets the client as owner, -2 and no change otherwise |
| FileServer.FileServer.UnlockVirtualFile | src/server/fileStorage.c:480-521 | the owner is cleared by the owner only; a free file answers 0, others -1 |
| FileServer.FileServer.DeleteVirtualFile | src/server/fileStorage.c:523-569 | an open file leaves the list exactly on its owner's demand |
| FileServer.FileServer.CloseVirtualFile | src/server/fileStorage.c:571-613 | a closed file answers 0; an open one is closed by its owner only and keeps its owner |
| FileServer.FileServer.HasFileLock | src/server/fileStorage.c:616-640 | true exactly when the first file of that name belongs to the client |
| FileServer.FileServer.GetNFileList | src/server/fileStorage.c:642-687 | the first names in order joined with commas, and their number |
| FileServer.FileServer.UpdateMaxSize | src/server/fileStorage.c:354-357 | the mark becomes the larger of itself and the present total |
| FileServer.FileServer.Evict | src/server/controller.c:63-75 | for a request of any size the machine's victim leaves; nothing changes when there is none |
| FileServer.FileServer.MakeSpace | src/server/controller.c:190-208 | for a request of any size room is made as the machine makes it: when its comparison says so, by one eviction at most |
| FileServer.FileServer.IncNumFileReplacement | src/server/statistic.c:68-72 | the replacement counter grows by one |
| FileServer.FileServer.FinishWrite | src/server/controller.c:210-245 | lock test, the case of a read of nothing, and the bytes stored; the storage mark rises exactly if they are |
| FileServer.FileServer.ServeWrite | src/server/controller.c:178-260 | on the linked list a write is what the specification serves, the unset variable included, with the lock tested after the eviction; the storage mark rises exactly if bytes are stored, and the replacement counter counts the eviction whether or not the write then succeeds |
| FileServer.FileServer.ServeAppend | src/server/controller.c:56-126 | on the linked list an append of any size is the machine's append; the storage mark rises exactly if bytes are stored |
| Files.NoVictimIff | src/server/utils.c:109-128 | a request that does not fit finds no victim exactly when removing no single file would make room |
| Files.EvictionIsFirstFit | src/server/utils.c:109-128 | the file that goes is the oldest whose removal alone makes room; it is not empty and the rest keeps its order |
| Files.TooBigFindsNoVictim | src/server/controller.c:182-188 | a request larger than the memory finds no victim, so both refusals agree |
| Files.WriteAfterCreate | src/server/controller.c:190-228 | an owner's write to its still empty file fails only when no single file frees enough room |
| Files.ReadAnswers | src/server/fileStorage.c:266-307 | a read answers the bytes of the file of that name if it is open, whoever owns it, and fails otherwise |
| Files.OpenAnswers | src/server/fileStorage.c:189-264 | exactly when an open succeeds, for every combination of flags: a file that is there, without the create flag, and with the lock flag only if it is open and free or the client's own, which it then is; one that is not, with the create flag or without the lock flag, if there is a place left, which a new empty file takes |
| Files.LockAnswers | src/server/fileStorage.c:435-478 | a lock succeeds on an open file that is free or the client's, waits for an open file of another client, and fails otherwise |
| Files.OwnerAnswers | src/server/fileStorage.c:480-613 | what unlock, close and delete answer and leave, told by whether the file is open and whose it is |
| Files.BytesAnswer | src/server/fileStorage.c:309-433 | an open file gets the bytes, or gets them added; the lock is the owner's even of a closed file |
| Files.AbsentFails | src/server/fileStorage.c:309-613 | unlock, close, delete, write and append fail on a file that is not there and change nothing, and nobody has its lock |
| EventLog.LookIsMapLookup | src/server/fileStorage.c:71-93 | where names are distinct, first-match lookup on the list is lookup in the map of all files, and every file is found under its name |
| EventLog.LookAfter | src/server/fileStorage.c:189-264 | what an event leaves under its own path, and that names stay distinct and all other paths keep their entry |
| EventLog.FrameOfEvent | src/server/fileStorage.c:156-187 | all files of other names keep contents and order |
| EventLog.ListRefinesOrderedMap | src/server/fileStorage.c:71-93 | each legal event acts on the list as on a finite map that remembers insertion order |
| LogTheorems.ReplayRefinesOrderedMap | src/server/fileStorage.c:71-93 | a whole legal log replayed on the list is the same log replayed on that map, so every lookup agrees |
| LogTheorems.SizeAfter | src/server/fileStorage.c:139-153 | how each event changes the number of files and the total size |
| LogTheorems.RunsStayWellFormed | src/server/controller.c:180-205 | after every legal log sizes fit the memory, the count fits the limit, names are distinct |
| LogTheorems.OwnerDiscipline | src/server/fileStorage.c:455-473 | an owner changes only from 0 to the locking client, or from a client to 0 by its unlock |
| LogTheorems.PresenceDiscipline | src/server/fileStorage.c:523-569 | a file leaves by its owner's delete or, not empty, by eviction; it appears only by creation, empty |
| LogTheorems.ContentsDiscipline | src/server/controller.c:210-233 | bytes change only by a write or append of the owner to an open file |
| LogTheorems.ClosedForGood | src/server/fileStorage.c:212-220 | a closed file never changes again |
| LogTheorems.ReadReturnsHistory | src/server/fileStorage.c:266-307 | a file holds the data of its last write since creation followed by all later appends in order |
| LogTheorems.FilesAreConserved | src/server/fileStorage.c:243-251 | creations are the present files plus deletions plus evictions |
| LogTheorems.PeakIsMaximum | src/server/statistic.c:39-66 | the recorded peak bounds the level after every event and was reached |
| Operations.SingleEvent | src/server/fileStorage.c:435-613 | a request that is neither write nor append changes the table by at most one legal event, made for its client |
| Operations.RoomIsEvents | src/server/controller.c:190-211 | making room is no event or one legal eviction, and afterwards the request fits |
| Operations.RequestsAreLegalEvents | src/server/controller.c:7-363 | every request changes the table as its events do, each legal where it happens |
| Operations.RequestsTouchOnePath | src/server/controller.c:7-363 | those events are at most one eviction, by a write or append only, followed by at most one event of the request's own path, all made for the requesting client |
| Operations.RequestsKeepWellFormed | src/server/controller.c:180-205 | every request as specified keeps the capacity limits and distinct names, and so does the code for every request but an append of unsound size |
| Operations.LockExcludesUntilUnlock | src/server/fileStorage.c:455-516 | after a lock every other client waits, cannot unlock, delete, close or write, and the holder's unlock restores the table |
| Operations.HolderWriteFailsIff | src/server/controller.c:190-247 | a holder's write fails exactly when no file frees enough or the first that does is the file itself, which is then gone |
| Operations.OwnFileEvicted | src/server/controller.c:190-247 | a table and a write for which that happens |
| Operations.AppendKeepsLimitIff | src/server/controller.c:58-97 | for all tables at once: appends of a size keep the memory limit if and only if the size is sound or there can be one file only |
| Operations.AppendBreaksLimit | src/server/controller.c:58-97 | a table on which an append of any other size exceeds the limit |
| MachineInts.TotalIsExact | src/server/utils.c:96-101 | within the limit the machine's sum is the mathematical one |
| MachineInts.TotalWraps | src/server/utils.c:88-107 | for every table the machine's sum is a 32-bit `int` that differs from the mathematical one by a multiple of 2^32 |
| MachineInts.FreeIsExact | src/server/utils.c:88-107 | in a well-formed table free space is exact and not negative, and the mixed comparison decides rightly |
| MachineInts.VictimIsExact | src/server/utils.c:116-124 | for a request of a sound size the machine picks the first fit |
| MachineInts.EvictionSoundIff | src/server/utils.c:109-119 | for all tables at once: evictions make room if and only if the memory holds the request or its value narrowed to `int` exceeds the memory |
| MachineInts.UnsoundForOneFile | src/server/utils.c:109-119 | a table on which any other size evicts without making room |
| MachineInts.AppendIsExact | src/server/controller.c:56-126 | for a sound size the machine's append is the specified one |
| ServerMutex.ExclusiveStep | src/server/controller.c:15-43 | every step keeps each mutex with the one thread whose program point holds it |
| ServerMutex.AcquireText | src/server/controller.c:178-208 | every program point takes mutexes in the order connections, queue, file lock, then statistics or connection count; the latter is taken with the queue mutex held when a request writes to the log |
| ServerMutex.NoDeadlock | src/server/controller.c:15-43 | whenever some thread is not asleep on a condition, waiting for a connection, signal or request, or finished, some such thread can step or the holder of the queue mutex waits for bytes its own client owes |
| ServerMutex.HeldMutexIsReleasable | src/server/statistic.c:39-79 | the holder of a taken mutex is never parked, and some thread can step, unless the mutex is the queue mutex and its holder waits for its client's bytes |
| ServerMutex.ParkedHoldsNothing | src/server/controller.c:298-328 | asleep, between requests or finished, a thread holds no mutex |
| ServerMutex.ReceiverHoldsQueueOnly | src/server/controller.c:216-223 | a thread that receives its client's bytes holds the queue mutex and no other |
| ServerMutex.CriticalSectionsEnd | src/server/controller.c:169-262 | each own step of a thread that holds a mutex, reads of its client's bytes included, brings it nearer to holding none: at most 23 steps, those of the log included, and one read for each byte |
| ServerStore.FileStepKeeps | src/server/controller.c:169-262 | each access to the table under the queue mutex keeps the table equal to its log replayed, adds at most one legal event, and establishes what the thread relies on next |
| ServerStore.RecordEvent | src/server/fileStorage.c:246-249 | one legal event keeps the log legal and replayed, and changes marks and counts as stated |
| ServerPool.PoolInvStep | src/server/server.c:162-174 | every step keeps the connection queue in order and its entries with at most one worker each |
| ServerPool.BroadcastStep | src/server/server.c:349-357 | after the signal thread's broadcast nobody is asleep on the connection condition or about to be |
| ServerRuns.RunsKeepInv | src/server/server.c:216-330 | the invariant of table, mutexes, marks and pool holds in every state of every run |
| ServerRuns.NoCrashStep | src/server/queue.c:42-64 | no step is an access the code does not survive; no worker pops an empty queue |
| ServerTheorems.TableOverRuns | src/server/fileStorage.c:226-229 | in every reachable state, for appends of sound size, capacity limits hold, names are distinct, and the table is the log of legal events replayed |
| ServerTheorems.RoomIsTheMachines | src/server/controller.c:190-194 | wherever a thread is about to look for room, the machine's arithmetic makes the room the model makes |
| ServerTheorems.ArithmeticOverRuns | src/server/utils.c:88-119 | in every reachable state the size arithmetic is exact and, for a sound size, picks the first fit |
| ServerTheorems.OwnershipOverRuns | src/server/fileStorage.c:455-564 | a step changes an owner only from 0 to its client, recorded as a lock, or from its client to 0, recorded as an unlock; a file goes only by its owner's delete or by eviction when not empty; it comes by a creation, empty |
| ServerTheorems.ContentsOverRuns | src/server/controller.c:178-260 | a step that changes a present file's bytes is made for its owner before and after, and the file is open |
| ServerTheorems.FrameOverRuns | src/server/fileStorage.c:309-569 | a step leaves all files but one as they are, in order |
| ServerTheorems.RequestsAreAtomic | src/server/controller.c:169-262 | table and answer after a request's section are those of the request served alone on the table the section began with, whatever other threads did; a write of nothing that finds the unset variable at -1 has no answer |
| ServerTheorems.ReadAnswersHistory | src/server/controller.c:130-140 | a read is answered with success if and only if an open file of that name is in the table; the file holds its last write since creation and all later appends |
| ServerTheorems.PeakOverRun | src/server/statistic.c:39-66 | the peak of the log is the maximum over all states so far and was reached |
| ServerTheorems.MarksAreExact | src/server/fileStorage.c:246-249 | whenever the queue mutex is free both marks are the exact maxima over all states so far |
| ServerTheorems.CountsAreExact | src/server/controller.c:203-204 | creations are present files plus deletions plus evictions; between requests the replacement counter is the number of evictions made by writes |
| ServerTheorems.NoDeadlockOverRuns | src/server/controller.c:298-361 | no reachable state is a deadlock of the mutexes: some unparked thread can step, or the holder of the queue mutex waits for its own client's bytes and can step when one comes; a parked thread holds no mutex, a receiving one the queue mutex only |
| ServerTheorems.PoolOverRuns | src/server/server.c:228-243 | no empty pop, the queue is what was accepted and not popped, threads in service serve different connections |
| ServerTheorems.ServiceIsFifo | src/server/server.c:162-174 | of any two pops in a run the later takes a later accepted descriptor, so each is served at most once and in order |
| ServerTheorems.ShutdownReachesThePool | src/server/server.c:349-375 | after the flag and the broadcast no worker sleeps on the connection condition, and whoever tests the flags leaves |
| ServerWakeup.BlockedIffWait | src/server/fileStorage.c:455-473 | a lock waits exactly for an open file owned by another client, an open does so with the lock flag and without the create flag |
| ServerWakeup.BroadcastWakesAll | src/server/controller.c:347-349 | after the unlocker's broadcast nobody waits or is about to |
| ServerWakeup.NoLostWakeup | src/server/controller.c:298-349 | as long as a worker waits for a path that stays in the table, another client owns it or the broadcast of an unlock of that path is under way |
| ServerWakeup.LostByStep | src/server/controller.c:142-167 | which steps take a present open file away: the owner's delete or close, and its eviction |
| ServerWakeup.StrandedExactlyBy | src/server/controller.c:142-167 | from any state the invariant allows, a waiting worker is left behind exactly if the step about to be made is one of those three for its file |
| ServerWakeup.StrandedOverRuns | src/server/controller.c:142-167 | the same for every step of every run |
| ServerWakeup.ShutdownLeavesLockWaiters | src/server/server.c:359-362 | no step of the signal thread ends a wait for a file lock; its second broadcast changes no other thread |
| ServerProgress.RequestIsAnswered | src/server/controller.c:7-395 | whatever the others do, at most 27 steps of its own and one for each byte bring a thread that serves a request to the answer, or to the wait for an open file of another client |
| ServerPaths.WokenTestsAgain | src/server/controller.c:302-313 | a worker woken from its wait for a file lock is back at the test, with the same request, by exactly five steps of its own |
| ServerPaths.TestDecides | src/server/controller.c:302-328 | the test gives the status of the request run alone on the table it sees; if that does not make the client wait, the answer is at most nine own steps away |
| ServerPaths.RequestIsTakenUp | src/server/server.c:248-314 | a request of any kind that is read before a signal to end is taken up, with exactly its client, request and unset variable, and comes to the queue mutex by a fixed number of own steps; a hangup does not change this |
| ServerPaths.FlagsOverRuns | src/server/server.c:345-375 | accepting ends exactly by a hangup, serving exactly by one of the other signals |
| ServerPaths.WorkerComesBack | src/server/server.c:316-326 | without a signal, a worker whose client has left is back in the pool by four steps of its own |
| ServerPaths.SignalEndsThreads | src/server/server.c:221-330 | after any signal a worker without a connection and the main thread at its loop end, after a signal to end also every worker between requests, and without taking up another; by at most eight own steps |
| ServerPaths.SignalIsAnnounced | src/server/server.c:349-375 | six own steps after a signal the signal thread is through, and nobody waits for a connection |
| ServerPaths.LinesAreWritten | src/server/controller.c:130-208 | a victim goes only after the line that names it, a write or append tests the lock only after its line, all other requests but reads have theirs before the queue mutex, and a read has one exactly for an open empty file |
| ServerConnections.NoForgottenConnection | src/server/server.c:162-174 | until a signal, whenever a worker waits for a connection, the queue holds no more of them than there are threads that will look at it before they sleep or are about to wake one that will |
| ServerConnections.CounterIsExact | src/server/utils.c:131-152 | until a signal, the connection counter is the number of workers that have counted their connection in and not out |
| WitnessRuns.CreateAndWriteAreAnswered | src/client/client.c:96-97 | a run of the server, from its start, in which a create and then a write of the same client are both answered with success and the table holds exactly the data |
| WitnessRuns.SleeperGetsLock | src/server/controller.c:302-328 | a run, from the start, in which a worker sleeps for a file lock and later answers its client that it has it |
| WitnessRuns.DeleteStrandsWaiter | src/server/controller.c:142-167 | a run of the server, from its start, whose last step is a delete that strands a sleeping worker |
| CreateThenWrite.FreshSurvives | src/server/utils.c:118-119 | no other client's event touches a created, still empty, locked file; in particular none evicts it |
| CreateThenWrite.CreateThenWriteSucceeds | src/client/client.c:96-97 | between a client's successful create and its write no interleaving comes between: for the table of some state in between, the write succeeds with exactly its data unless no single file frees enough room there; a write of nothing that finds the unset variable at -1 changes nothing and has no answer |
| Exchange.SectionVerdictIsOutcome | src/server/controller.c:178-260 | the status sent in the end is that of the write, or of the append of any size as the machine carries it out, on the table |
| Exchange.EvictedFileIsSent | src/server/utils.c:61-86 | the file sent to the client is the one that leaves the table to make room, with its bytes, and one is sent exactly when one leaves; for an append it is the machine's victim |
| Exchange.FailedDeleteIsToldAsSuccess | src/server/controller.c:151-157 | a table on which a failed delete is told as a success |
| Exchange.ListAnswer | src/server/controller.c:376-395 | the status sent for a list is the number of its names, all for a negative request or one for more than there are, and -1 for none |
| Exchange.StatusSent | src/server/controller.c:142-361 | the status sent for open, lock and unlock of a file, told by whether it is open and whose it is; for delete and close it is always 0 |
| ExchangeProofs.ClientKeepsInStep | src/client/serverApi.c:118-225 | every client step keeps both streams in step: what is sent and unread, then what will be sent, is what will be read |
| ExchangeProofs.ServerKeepsInStep | src/server/controller.c:178-262 | every server step does, too |
| ExchangeProofs.ExchangesStayInStep | src/client/serverApi.c:118-306 | over every interleaving and all sizes of pieces, and in a bounded number of moves |
| ExchangeProofs.RestIsTheEnd | src/client/serverApi.c:152-204 | the two never both wait, but for the one case of the unset variable |
| ExchangeProofs.ExchangeAgrees | src/client/serverApi.c:118-306 | at the end both streams are empty, the client returns the verdict's status and holds the evicted or requested file, and the server has stored exactly its bytes |
| ExchangeProofs.HangsExactly | src/server/controller.c:221-245 | the exchange that does not end is a lock holder's write of an empty file with the unset variable at -1 |
| ExchangeProofs.EmptyWriteVerdict | src/server/controller.c:210-221 | a table on which the server is ready for such a write |
| ExchangeProofs.EmptyWriteHangs | src/server/controller.c:221-245 | that exchange move by move, up to the state in which neither side can go on |
| ExchangeProofs.SectionExchangeMatchesTable | src/client/serverApi.c:118-306 | a write, or an append of any size, ends unless it is the unanswered write; it then returns the status of the section as the machine carries it out, its bytes are stored exactly on success, and for a sound size this is what the threads answer |
| ExchangeProofs.ToldIsOutcomeIff | src/client/serverApi.c:449-468 | over whole exchanges, the client's call returns the outcome of the request if and only if: for a lock the file is there and open; for an unlock also free or the client's; for a close it is there and closed or the client's; for a delete it is there, open and the client's; for a list at least one name is announced; for a read and a write it is not an open empty file to be read or a holder's write of no bytes with the unset variable at -1; for all other requests always |
| ExchangeProofs.EmptyReadIsToldAsFailure | src/client/utils.c:92-100 | such a read, move by move: the table has the file and the client is told of a failure |
| ExchangeProofs.ReadExchangeMatchesTable | src/client/utils.c:76-110 | a read ends with exactly the bytes of the open file of that name, whoever owns it, and fails exactly when there is none, or for an empty one with the unset variable at -1 |
| ReadData.Stream.Read | src/server/utils.c:195 | a read delivers between 1 and `left` bytes, in order |
| ReadData.ReadData | src/server/utils.c:188-201 | for every choice of pieces the loop ends, fills the buffer with the next `size` bytes and leaves the rest |
| FileList.NextToken | src/client/serverApi.c:415-429 | one call of `strtok` finds the next maximal run without commas |
| FileList.SplitList | src/client/serverApi.c:415-429 | the client's loop collects all tokens |
| FileList.TokensOfJoin | src/server/fileStorage.c:658-682 | splitting a joined list of nonempty comma-free names gives the names back |
| FileList.TokensAreWords | src/client/serverApi.c:415-429 | tokens are nonempty, free of commas, and made of characters of the list |
| FileList.FileListRoundTrip | src/server/controller.c:376-395 | through the message buffer the list comes back in order and number if and only if every name is nonempty and free of commas and NULs |
| FileList.AnnouncedIsMinimum | src/server/fileStorage.c:654-655 | the announced number is the smaller of request and length, and the length for every negative request |
| FileList.ClientSeesFirstNames | src/client/serverApi.c:412-429 | the client gets exactly the first names in order, as many as announced |

## Left out

- The controllers and the client's calls are step functions on values, because their interleavings are the point; updates in place and aliasing are captured by the heap classes under them, which hold one request's section at a time.
- Sockets, `select`, `accept`, pipes and signals are choices of the environment: a connection arrives, a request arrives, the stream ends, a shutdown is asked for.
- Frames are assumed to arrive whole and writes to complete; short reads, end of stream and errors inside `readData` are not modelled, since its loop does not handle them.
- An append's data and the file evicted for it are read with one `read` each (`src/server/controller.c:93`, `src/client/serverApi.c:261`), assumed to deliver everything.
- ServerTheorems.TableOverRuns: asks for appends of a sound size, because the code does not check it; Operations.AppendKeepsLimitIff says exactly what the check is worth.
- In the thread model the reads of a client's bytes say how many come, not which; the exchange model says which.
- Responses and evicted files are written with the queue mutex held; these writes are assumed to complete.
- FileServer.FileServer.GetFreeSpace: the sum wraps as the code's does, so it is the mathematical one only within the limit; MachineInts.FreeIsExact proves that it is.
- ReadData.ReadData: asks that the bytes will come, because the loop does not handle a stream that ends.
- FileList.FileListRoundTrip: asks that the joined list fits in 99 characters; beyond that the code overruns its message buffer.
- Starvation: nothing says that a particular thread is scheduled; what is proved is how many steps of its own bring it to its answer, and that a woken worker tests again, not that it wins the lock.
- The text of the log; that writing a line takes the counter's mutex is part of the threads. The log file is assumed to be open. After a signal the connection counter is not followed, since workers then leave without counting out.
- Allocation failure (the allocator ends the process), statistics printing, configuration parsing and the shell scripts.
- `deleteQueue`, `deleteFileQueue` and the cleanup after all threads have ended.
- `getFileList`, used for printing only, and `editFileNode` and `getFirstNode`, which nothing calls.
- Freeing of removed nodes and buffers: the heap model leaves them to garbage collection and proves only that they are unlinked.
- The fixed-size path buffer, the client's option parsing and its saving of files to disk.
- Requests with an unknown operation code, which the server does not answer.
