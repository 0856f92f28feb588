# Verification of finger_move

finger_move is a daemon that exchanges fingerprint files between a main cache, several group
servers and the replica sub caches of the main cache. Once a day the main cache ranks its files by
how often its run logs show them queried, tells each group the highest query count on its cold
list, takes the group's hotter files and gives consecutive windows of its cold list in return. Run
logs are written by one thread that is fed through a bounded blocking queue.

The project models these three parts, runs them together, and proves what they are for.

- `Monitor.dfy` is the protocol of the queue: the critical sections as functions on the fields
  behind the lock, and the transition system of any number of threads, each with its program of
  calls, with lost signals, spurious wakeups, resets, flags and capacity changes. `PQueue.dfy` is
  the linked list with its tail pointer, node by node; each method is proved to be the critical
  section of the same name.
- `Text.dfy` has the C text primitives (`atoi`, `%d`, `find`, `strtok`, `strcmp`, `strftime`),
  `Files.dfy` files and sums over directories, `Counting.dfy` what it means to have counted a
  directory of logs, `Selection.dfy` the hot and the cold selection. `ProDeal.dfy` has the file
  processing steps as methods over a disk, with their loops and their error returns, and
  `Services.dfy` composes them into `Preconf` and the daily loop.
- `RunLogs.dfy` follows run logs through appending, rotating and collecting; `LogWriter.dfy` is the
  writer thread.
- `Exchange.dfy` is the exchange protocol as a transition system over the AFP, ORG and DST
  directories of all hosts, with failing RPCs; `Handlers.dfy` has the RPC handlers and the loops
  that call them, proved to be exactly the steps that their outcomes say.
- `Daily.dfy` is one day on the disks of all hosts: what the groups select and what the main cache
  hands out come from the pipelines on their disks, and the network moves just that, with pushes of
  the groups between the lines. `Days.dfy` puts any number of such days in a row. `EmptyIds.dfy` says
  from the logs and files when an empty id breaks a stage.

A file is the sequence of its lines, each with its line end; a directory is a map from names to
files. `readdir` lists a directory in any order, `std::sort` is any sorted permutation, a clock
reading is an input, and an RPC is one step whose outcome is an input. Runs are sequences of
actions that carry the scheduler's choices; since every prefix of a run is a run, a statement about
the end of every run is one about every reachable state.

## Where the code falls short of its purpose

The model keeps what the code does. These are proved with a concrete case or an exact condition.

- Raising the capacity signals nobody, so a producer can sleep beside a free slot
  (`Monitor.SetSizeCanStrandProducer`). It keeps the wakeup promise exactly when no producer waits
  or as many are already woken as there will be free slots; a reset keeps it exactly when nobody
  waits (`Monitor.StepKeepsWakeupsIff`).
- A reset forgets who waits (`Monitor.ResetCanStrandProducer`): without a spurious wakeup or a
  release, a thread that waits at a reset sleeps on until another one falls asleep beside it
  (`Monitor.ResetStrandsWaiters`).
- A log line with an empty song id is counted (`Services.EmptyIdIsAccepted`), but its counting line
  has no second word for `strtok`, and `atoi` gets a null pointer (`Text.RoundTripIff`). Such a line
  gets into the filtered file exactly when a counted log line has an empty id and an owned file has
  key 0 (`Services.EmptyIdIsOwnedIff`). A group then fails exactly when the line comes within the
  limit and behind nothing but entries above the threshold (`Selection.TopReadsBack`), and the main
  cache exactly when the line would get on the cold list (`Selection.ColdReadsBack`); further back it
  does no harm (`Selection.BadLineBehindTheStop`). From the logs and files alone, whatever the order
  of ids with equal counts, `EmptyIds.MainBreaks` and `EmptyIds.GroupBreaks` say when it never and
  when it always happens.
- A group selects ids but moves files named by just the id and `.afp`: it answers 1 for the
  fingerprint in `07.afp` and sends nothing (`Services.SelectedFileCanStay`), and the main cache
  advances its window all the same. The answer is the number of files exactly when all those names
  exist (`Services.AnswerCountsFiles`), and the main cache gives as many back exactly when its window
  is full and names different files that it still has (`Services.ShareCountsFiles`).
- The cold list names queried fingerprints by their bare id, without the `.afp` of file names, so
  `movCntFile` silently leaves them where they are (`Services.QueriedColdFileStays`). Everything on
  the list can move exactly when files have just those names (`Services.AllColdMoveIff`).
- Two rotations within one second lose the lines between them (`RunLogs.SameSecondLosesLines`); a
  rotation keeps every line exactly when its name replaces none (`RunLogs.RotateKeepsLinesIff`).
- Without sub caches the main cache answers OK to a pushed file and drops it
  (`Exchange.WithoutSubsPushesAreLost`), because the local write stands inside the loop over the
  sub caches. A fingerprint is owned by exactly one server at the end of a run exactly when no step
  lost it (`Exchange.OwnedOnceIffNeverLost`).

The comment in `src/server.cc` calls DAT_DIR the searcher's log directory; the code treats
`server.log` in it, the name the log writer uses, specially. The model follows the code: one run
directory.

## Model

| member | source | states |
|---|---|---|
| Monitor.NoWakeupIsLost | src/tpqueue.h:123-180 | in every reachable state of every calm run, spurious wakeups included, both waiter counters cover the waiting threads and every item or free slot beside a waiter is covered by a woken thread; a state where nothing can move has no waiter beside what it waits for, and never both kinds of waiters |
| Monitor.StepKeepsWakeupsIff | src/tpqueue.h:82-180 | from any state that satisfies that invariant, a step keeps it if and only if it does not raise the flag, does not reset over a waiting thread, and does not raise the capacity over a waiting producer by more slots than there are woken producers |
| Monitor.StartHasNoLostWakeup | src/tpqueue.h:54-65 | the constructed queue with any thread programs satisfies the invariant |
| Monitor.StepKeepsCountsIff | src/tpqueue.h:82-180 | a step keeps both counters equal to the numbers of waiting threads if and only if it is no spurious wakeup, no release of waiting consumers and no reset over waiting threads |
| Monitor.CountsAreExact | src/tpqueue.h:123-180 | in every reachable state of a run without such steps both counters are the numbers of waiting threads |
| Monitor.GetKeepsCounts | src/tpqueue.h:149-152 | while the counters are exact, a `get` that signals a producer has one waiting |
| Monitor.PutKeepsCounts | src/tpqueue.h:174-177 | while the counters are exact, a `put` that signals a consumer has one waiting |
| Monitor.ResetCanStrandProducer | src/tpqueue.h:82-97 | a reachable state after a reset in which a producer sleeps at an empty queue that counts no waiter, and nothing can move |
| Monitor.ForgottenWaiterSleepsOn | src/tpqueue.h:130-179 | a waiter that its counter does not count sleeps on over every run, with whatever gets, puts, capacity changes and resets, until a spurious wakeup, a release of consumers, or another thread that falls asleep in its role |
| Monitor.ResetStrandsWaiters | src/tpqueue.h:82-97 | so everyone who waits at a reset sleeps on in each such continuation |
| Monitor.SetSizeCanStrandProducer | src/tpqueue.h:100-106 | a reachable state in which a producer sleeps beside a free slot and nothing can move |
| Monitor.StepDropsMeasure | src/tpqueue.h:128-152 | every step of a thread drops the pair of calls left and runnable threads lexicographically |
| Monitor.RunsAreBounded | src/tpqueue.h:123-180 | every run without spurious wakeups is no longer than a bound computed from its first state |
| Monitor.MaximalRunsComplete | src/tpqueue.h:123-180 | every maximal run of threads that put before they get, with as many gets outstanding as items to come and fewer gets beyond the threads' last puts than the queue has slots, ends with all calls returned and the queue empty, whatever spurious wakeups it has |
| Monitor.MaximalRunsCompleteIff | src/tpqueue.h:123-180 | of balanced threads that put before they get, in any state that satisfies the wakeup invariant, all maximal runs complete if and only if the gets beyond the last puts are fewer than the slots |
| Monitor.SomeRunWaitsForItself | src/tpqueue.h:163-168 | otherwise consumers can take what is there, producers put all but their last items, and the rest fall asleep on the full queue |
| Monitor.MixedThreadWaitsForItself | src/tpqueue.h:128-135 | a thread that gets before it puts can wait for itself, although its calls are balanced |
| Monitor.FullQueueWaitsForItself | src/tpqueue.h:163-168 | one thread with two puts before two gets waits for itself on a queue of one slot |
| Monitor.PairsComplete | src/tpqueue.h:123-180 | two threads with one put and one get each complete on it in every maximal run |
| Monitor.EveryItemHasItsPlace | src/tpqueue.h:82-180 | over every run, resets included, items leave in the order of entry, and each item is in exactly as many places (to be put, queued, delivered, destroyed) as the programs put it |
| Monitor.NothingDepartsTwice | src/tpqueue.h:82-97 | an item put once is never delivered twice, destroyed twice, delivered after destruction, or still queued after either |
| Monitor.ReleaseShutsDown | src/tpqueue.h:109-120 | raising the flag and releasing the waiters reaches the shut-down state from any state |
| Monitor.StepKeepsShutDown | src/tpqueue.h:123-140 | while the flag stays up a `get` returns at once, changes nothing but its thread's program, and no consumer waits |
| Monitor.ShutDownIsSafe | src/tpqueue.h:109-140 | over every run after the shutdown no consumer waits, nothing is taken, and the contents stay in order |
| PQueues.PQueue.constructor | src/tpqueue.h:54-65 | the new list is well formed and is the empty queue of the protocol |
| PQueues.PQueue.PreparePut | src/tpqueue.h:160-161 | a null argument returns; otherwise the node is unlinked before the lock |
| PQueues.PQueue.Put | src/tpqueue.h:163-179 | on the linked list with its tail pointer, one critical section of `put` keeps the list well formed and is the protocol's section |
| PQueues.PQueue.Append | src/tpqueue.h:170-172 | writing through the tail pointer appends exactly the node to the list |
| PQueues.PQueue.Get | src/tpqueue.h:126-155 | one critical section of `get` takes the first node and keeps the list well formed, also when it becomes empty, and is the protocol's section |
| PQueues.PQueue.ResetQueue | src/tpqueue.h:82-97 | every node is deleted once, in list order, and the fields are those of a new queue |
| PQueues.PQueue.DeleteAll | src/tpqueue.h:85-88 | the deleting loop visits exactly the nodes of the list |
| PQueues.PQueue.SetSize | src/tpqueue.h:100-106 | a capacity not above the current size is ignored, so the size never exceeds it |
| PQueues.PQueue.SetFlag | src/tpqueue.h:109-113 | the flag changes and nothing else |
| Text.RoundTrip | src/prodeal.cc:199 | printing an entry and splitting the line with `strtok` and `atoi` gives the entry back, for every nonempty id without a bar and every integer count |
| Text.RoundTripIff | src/prodeal.cc:278-280 | over ids without a bar the round trip holds if the id is not empty, and otherwise the second `strtok` finds no word |
| Text.RenderKey | src/prodeal.cc:240-242 | `atoi` of a printed line is `atoi` of its id, for every id |
| Text.AtoiStops | src/prodeal.cc:236-242 | `atoi` ignores what follows a character that is no digit, space or sign, so ids and file names of one number share their key |
| Text.AtoiReads | src/prodeal.cc:236-242 | `atoi` reads blanks, a sign and a decimal number, however many zeros lead it and whatever follows that is no digit |
| Text.AtoiReadsNothing | src/prodeal.cc:236-242 | where no digit comes after blanks and a sign, `atoi` reads 0 |
| Text.PaddedNameKey | src/prodeal.cc:236-242 | a file name that is a number with any zeros before it and .afp behind it has the number as its key, as the plain id has |
| Text.TenIsTen | src/prodeal.cc:199 | 010.afp has key 10, and numbers are printed in base ten |
| Text.StrLessIff | src/prodeal.cc:91 | `strcmp` is negative exactly if the first difference is a smaller character, or the string is a proper prefix |
| Text.StampOrder | src/prodeal.cc:80-91 | for valid times `strcmp` on the zero-padded names is chronological order |
| Text.StampLayout | src/logmt.cc:13-53 | a rotated log is named by four, two, two, two, two and two digits with `-`, `-`, `_`, `-`, `-` between them and `.log` behind, and these digits are the six fields of the time |
| Text.StampDeterminesTime | src/logmt.cc:52-53 | two valid times with one name are equal |
| Counting.AcceptsIff | src/prodeal.cc:166-182 | a log line is counted for an id if and only if it begins with "$$", the id is its second field between bars, and is not "-1" |
| Counting.HitsAreLines | src/prodeal.cc:166-183 | the hits of an id in a file are as many as the places of its lines that carry the id |
| Counting.CountsSumToAccepted | src/prodeal.cc:166-201 | the counts of an exact counting sum up to the number of accepted lines of the directory |
| ProDeal.Disk.GetAfpName | src/prodeal.cc:31-64 | lists every file of the directory once, in some order; fails without a change if a directory is missing |
| ProDeal.Disk.MovLogFile | src/prodeal.cc:66-132 | every run log is afterwards in the log directory, in place of one of the same name; of the other logs exactly those stay that do not sort before the cutoff; only the live log is left behind, unchanged; a missing run directory fails after the deletions |
| ProDeal.Disk.CntSrhNums | src/prodeal.cc:134-207 | writes each counted id once with its number of accepted lines over all files, in the order the flag selects |
| ProDeal.Disk.FltLogFile | src/prodeal.cc:209-253 | keeps, in order, exactly the counting lines whose number is that of a listed file; a missing file fails without a change |
| ProDeal.Disk.TopAfpFile | src/prodeal.cc:255-293 | for any file, writes the names of the entries up to the first one not above the threshold or the limit and returns their number; it dereferences null exactly when the line it stops at within the limit has no second word |
| ProDeal.Disk.BotAfpFile | src/prodeal.cc:295-355 | for any files, writes the unqueried names, then the ids in order, up to the limit, and returns the count of the last id taken; it dereferences null exactly when a line that it has room for has no second word |
| ProDeal.Disk.MovAfpFile | src/prodeal.cc:357-399 | empties the transfer directory and moves exactly the named files that exist |
| ProDeal.Disk.MovCntFile | src/prodeal.cc:401-447 | empties the transfer directory and moves exactly the existing files that the window of lines names |
| Selection.KeepRendered | src/prodeal.cc:236-246 | filtering printed lines by number is filtering entries by key |
| Selection.OwnedStayInOrder | src/prodeal.cc:240-246 | filtering keeps the sorted order that the later stages rely on |
| Selection.PaddedFileIsOwned | src/prodeal.cc:236-246 | the entry of a song is kept, and its file is not listed as one nobody asked for, if the file is named by the song's number with zeros before it or not |
| Selection.TopIsExact | src/prodeal.cc:274-290 | on a descending list the loop with its two breaks selects the first `limit` of all entries above the threshold; nothing dropped is hotter than anything kept, and only a full list drops an entry above the threshold |
| Selection.TopReadsBack | src/prodeal.cc:274-290 | on printed entries the selection dereferences null if and only if an empty id comes within the limit and behind nothing but entries above the threshold; otherwise it stops where it would on the entries |
| Selection.ColdReadsBack | src/prodeal.cc:335-348 | on printed entries the filling loop dereferences null if and only if the cold list it makes has an empty id |
| Selection.BadLineBehindTheStop | src/prodeal.cc:275-283 | an entry of id 5 with count 1 and behind it one with an empty id: with threshold 3 the selection never reads the second line, with threshold 0 it breaks there |
| Selection.ColdStaysUnderThreshold | src/prodeal.cc:321-347 | nobody asked for an unqueried file of the cold list, and no id on it has more queries in the logs than the threshold |
| Selection.ThresholdIsNoError | src/prodeal.cc:300-354 | the threshold is never negative, so it is never the error code |
| Selection.HotIsHotterThanCold | src/server.cc:90-106 | for all logs and all files of both hosts, every fingerprint a group selects above main's threshold has strictly more queries than every fingerprint of main's cold list |
| Selection.OwnedAreCounted | src/prodeal.cc:321-347 | with one file and one song per key, unqueried files and owned entries together are as many as the files |
| Selection.ColdListIsOptimal | src/prodeal.cc:321-352 | with one file and one song per key the cold list is as long as the limit and the files allow, names only owned fingerprints and none twice, leaves nothing that was asked for less than anything it takes, and the threshold is the largest count taken, 0 if all are unqueried |
| RunLogs.ExpiredIff | src/prodeal.cc:86-97 | a rotated log expires if and only if it was stamped before the cutoff, and the live log never does |
| RunLogs.ServerLogNeverExpires | src/prodeal.cc:91 | the live log's name sorts behind every stamp and is none |
| RunLogs.EveryLineOnce | src/prodeal.cc:86-127 | after any history of appends, rotations to fresh stamps and collections, a collection leaves each line in the log directory as often as it was appended, less its occurrences in expired files |
| RunLogs.EveryQueryOnce | src/prodeal.cc:86-183 | so the query volume found for a song is the number of lines ever appended for it, less the expired ones |
| RunLogs.RunKeepsAccount | src/logmt.cc:45-62 | measured by any count of lines, run directory, archive and expired files add up to what was appended in every reachable state |
| RunLogs.RotateKeepsLinesIff | src/logmt.cc:50-54 | a rotation keeps every line if and only if its name replaces no lines |
| RunLogs.CollectKeepsLinesIff | src/prodeal.cc:104-128 | a collection keeps every unexpired line, under any count of lines, if and only if no file of the run directory but the live log replaces an unexpired one that has something to count |
| RunLogs.MovedLogReplaces | src/prodeal.cc:111-116 | a log that is moved over one of the same name replaces it |
| RunLogs.SameSecondLosesLines | src/logmt.cc:50-54 | two rotations in one second lose the line written between them |
| LogWriters.LogWriter.Run | src/logmt.cc:28-64 | the writer loop turns the messages into the run directory that the specification gives, rotating when its counter is 0 to the name of that time (see Text.StampLayout), and closes the file at the end |
| LogWriters.LogWriter.Accept | src/logmt.cc:45-62 | one message is written to an open live log: a new file is begun exactly when the counter is 0, and the counter starts over after 50000 lines, so no line is written while no file is open |
| LogWriters.FilesHoldChunks | src/logmt.cc:45-62 | with fresh stamps every file but the last holds exactly 50000 consecutive messages under the stamp of the next file, the live log holds the rest, a live log found at the start is under the first stamp, and the other files that were there stay |
| LogWriters.JoinedChunks | src/logmt.cc:45-62 | the files in order of creation, joined, are the messages in order |
| LogWriters.LogFollowsPutOrder | src/logmt.cc:36-70 | over every run of the queue without a reset, the writer's files joined, followed by what is queued, are the messages in the order of their puts |
| Exchange.RunConserves | src/service.cc:154-183 | over every run with any failures and interleavings, for a fingerprint held at most once, the copies at the end and those lost in the run are those at the start |
| Exchange.OwnedOnceIffNeverLost | src/client.cc:58-93 | at the end of any exchange a fingerprint is owned by exactly one server, in one of AFP and DST, if and only if no step lost it |
| Exchange.FingerprintsAreConserved | src/service.cc:154-183 | with sub caches, successful RPCs and pushes done before the next Preconf, each owned fingerprint ends at exactly one server, although ORG is wiped before each batch, and none appears from nowhere |
| Exchange.WithoutSubsPushesAreLost | src/server.cc:165-211 | with an empty sub list a pushed file is lost although the handler answers OK |
| Exchange.ContentsAreKept | src/client.cc:136-176 | in every reachable state every file has the contents that belong to its name, in every directory of every host |
| Exchange.ReplicasAgree | src/client.cc:178-201 | if all sub caches agree with main at first and all RPCs succeed, then after every sequence of exchanges, whatever interleaves, both of their directories are main's once nothing is under way |
| Handlers.Network.MainAfpmove | src/server.cc:145-214 | exactly the sub caches before the first failing RPC get the file, main gets it if and only if there is one, and the answer is OK if and only if none failed |
| Handlers.Network.PushFile | src/client.cc:65-93 | pushing one file is one step of the protocol, and directory by directory: DST of the sub caches before the first failing RPC and, if there is one, of main; it is answered OK if and only if none fails |
| Handlers.Network.PushAll | src/client.cc:41-98 | the push loop is exactly one push for each file that is left, in the order of the directory, each as far as its RPC outcomes let it; DST of main and of each sub cache gains exactly the files that get there, nothing is left, and no other group changes |
| Handlers.Network.PushSome | src/client.cc:28-39 | while main is at work, the groups' threads make exactly the pushes for which they get turns, of files that they still have to push |
| Handlers.PushesAreAllOkIff | src/client.cc:81-92 | the push loop is a run without a failure if and only if each of its files reaches every sub cache |
| Handlers.Network.SendFile | src/client.cc:157-201 | sending one file is one step of the protocol, and directory by directory: the target group's DST has it if it is delivered, and no other group changes; the sub caches reached lose it from AFP, delivered or not; main's directories stay |
| Handlers.Network.SendAll | src/client.cc:111-206 | the send loop is exactly one send for each file that is left, in the order of the directory, each with the outcomes of its RPCs, and leaves nothing to send; the target group's DST gains exactly the delivered files, each sub cache's AFP loses exactly those deleted there, and nothing else changes |
| Handlers.SendsAreAllOkIff | src/client.cc:157-201 | the send loop is a run without a failure if and only if each of its files is delivered and deleted at every sub cache |
| Handlers.LineStock | src/service.cc:154-183 | what one line of the list does to AFP and ORG at main and at every group, whatever is sent in it and pushed behind it |
| Handlers.SendsArrive | src/client.cc:111-206 | every run of sends changes exactly those directories so |
| Handlers.PushesArrive | src/client.cc:41-98 | every run of pushes of a group changes exactly those directories so |
| Handlers.LineDelivers | src/service.cc:161-182 | over one line of the list, with whatever is pushed behind it, DST of an answering group gains exactly the delivered files of the window that main still had, and no other group's DST changes |
| Handlers.Network.PlayRound | src/service.cc:154-183 | one line of the group list: an asked group loads, and if its answer arrives main loads one window and sends each file that it has of it once, before the next line |
| Handlers.Network.Day | src/service.cc:154-183 | for any answers and any turns of the groups' threads the day is exactly its events in order: per line a load of the hot files, a batch of the window, one send with its outcomes for each file that the window names and main has not handed out before, nothing for a group that is silent, then the pushes; each group's DST gains exactly the files that are sent to it and delivered |
| Handlers.DayIsAllOk | src/service.cc:154-183 | if no RPC for a file fails and each asked group is asked once and had nothing to push, the day is a run of the kind that conserves fingerprints and keeps the replicas in agreement |
| Handlers.Network.PushEverything | src/client.cc:28-39 | the remaining pushes of all groups are a run of the protocol after which nothing is under way |
| Services.EmptyIdIsAccepted | src/prodeal.cc:166-182 | the line of two dollars, two bars and a line end is counted, for the empty id |
| Services.EmptyIdIsOwnedIff | src/prodeal.cc:236-246 | an empty id gets into the filtered file if and only if a counted log line has one and an owned file has key 0 |
| EmptyIds.OwnedByLogs | src/prodeal.cc:166-246 | an id is in the filtered file with a count if and only if the logs have so many lines for it and a file has its key, so the bounds below do not depend on the sort |
| EmptyIds.ColdFilesCount | src/prodeal.cc:321-333 | the unqueried names are as many as the files for whose key no id is in the logs |
| EmptyIds.MainBreaks | src/prodeal.cc:335-348 | main never breaks if unasked files and owned ids with fewer queries than the empty id fill the list, and always if unasked files and owned ids with at most as many fit |
| EmptyIds.GroupBreaks | src/prodeal.cc:274-290 | a group never breaks if owned ids with more queries than the empty id fill its limit or one of them is not above the threshold, and always if those with at least as many are within the limit and, but for the empty one, above the threshold |
| Services.Preconf | src/server.cc:69-131 | for all logs and files of a group: it breaks on a null pointer if and only if an empty id lies before the stopping point of the selection; otherwise it answers the number of its selected fingerprints, the first above the threshold by exact counts, and moves exactly their existing files to ORG, or on no selection answers an error and moves nothing |
| Services.AnswerCountsFiles | src/prodeal.cc:285-392 | the answer is at least the number of files moved, and equal to it if and only if each selected fingerprint has a file named by just its id and `.afp` |
| Services.SelectedFileCanStay | src/prodeal.cc:285 | the fingerprint in 07.afp is selected, answered as 1, and not moved |
| Services.RankMain | src/service.cc:137-153 | for all logs and files of main: it breaks on a null pointer if and only if an empty id would get on the cold list; otherwise it leaves the cold list of exactly counted logs and returns its threshold, which is no error code |
| Services.CollectedMeans | src/service.cc:139-145 | what a ranking counts is the log directory after every run log has gone there in place of one of the same name, and the live log stays in the run directory |
| Services.RankAndAsk | src/service.cc:137-172 | run on two disks, main makes the cold list of its exact counting, the group selects with exactly its threshold, and the selected fingerprints are all strictly hotter by the logs of the group than the cold ones by those of main |
| Services.Allocate | src/service.cc:154-172 | for every list of answers and failures, the i-th answering group gets the window that begins at the sum of the earlier answers, with exactly the named files that main still had, and main keeps the rest |
| Services.AnswersAre | src/service.cc:161-172 | the counts that the windows follow are the answers of the groups that answered, in the order of the list |
| Services.RunDay | src/service.cc:122-187 | without a group list nothing changes; otherwise the answering groups share the cold list of this day's exact counting of the files and collected logs |
| Services.WindowsPartition | src/service.cc:154-172 | the windows joined are the first lines of the cold list, as many as the answers add up to: contiguous from 0, no overlap, nothing skipped on a failure |
| Services.SharesAreDisjoint | src/prodeal.cc:429-443 | no file goes to two groups, and no window reaches into a later one |
| Services.ShareCountsFiles | src/prodeal.cc:429-443 | a share has at most as many files as its group answered, and as many if and only if its window is full and names different files that main still has |
| Services.AllColdMoveIff | src/prodeal.cc:344 | everything on the cold list can be moved if and only if each queried id is itself the name of a file |
| Services.QueriedColdFileStays | src/prodeal.cc:341-345 | the queried fingerprint of 7.afp is listed as 7, and its file does not move |
| Daily.Day | src/service.cc:122-187 | one day on the disks of all hosts: main breaks if and only if its cold list has an empty id, and then nothing happens; otherwise each asked group does what Preconf does with the threshold of this day's cold list, on the directories that the lines before have left, the answering ones get the consecutive windows, and the network does exactly the rounds of these selections and windows with the pushes between them; at the end AFP and ORG of every disk are those of the protocol |
| Daily.LineMeans | src/service.cc:154-182 | on one line: unless the request arrives, the group selects something and its answer comes back, main's directories and DST of all groups stay as they are; otherwise exactly the files named by the next lines of the cold list, as many as the answer, leave AFP for ORG, and DST of the line's group, and of no other, gains the delivered ones |
| Daily.PosMeans | src/service.cc:161-172 | the first window begins at line 0, and each line on which an answer comes back, and no other, moves the begin of the next one by it |
| Daily.RoundMeans | src/service.cc:154-172 | main hands out a window exactly on the lines on which a selecting group's answer comes back, to the group of that line |
| Daily.DayMeans | src/service.cc:122-187 | over a whole day main keeps exactly what no window names, and each group's DST gains exactly the files named by its own windows, not by an earlier line, and delivered |
| Daily.LineKeepsStep | src/service.cc:154-183 | one line of the list, with whatever is pushed behind it, keeps disks and protocol in step at every host |
| Daily.EveryVisitIsHotter | src/service.cc:137-172 | on every day, each fingerprint that any asked group selects is asked for there strictly more often than each one on the cold list is at main, whatever all logs and files |
| Daily.DayAndPushes | src/service.cc:122-187 | a day and what is then left to push ends with nothing under way, the shares handed out, and disks and protocol in step; a fingerprint that had one owner has one if and only if no step lost it |
| Daily.DayConserves | src/service.cc:154-183 | if no RPC for a file of that day fails and no group is listed twice, all fingerprints keep one owner, and sub caches that agreed with main are replicas of it again |
| Days.RunLoop | src/service.cc:122-187 | over any number of days, with new run logs each morning and pushes before, between and after the lines of every day, each day goes as Daily.Day says from where the one before it ended; at the end a fingerprint that had one owner has one if and only if no step of any day lost it, and if no RPC for a file fails and every group has pushed everything when it is asked, none is lost and the sub caches are replicas |
| Days.DaysAreRun | src/service.cc:122-187 | days in a row on the disks are one run of the exchange protocol |
| Days.EveryDayIsHotter | src/service.cc:137-172 | on each of those days all that an asked group selects is strictly hotter than all of the day's cold list |

## Left out

- The wait loops of `put` and `get` are not one method: each pass through the lock is a critical section, and the passes of a call are steps of the transition system, because other threads run in between.
- `logover` as a complete shutdown: the reset clears the flag, so a consumer that runs late may wait again.
- Failing `fopen` on files that exist, full disks, `fgets` chunks, fixed buffers, file handles left open and 32-bit overflow.
- Names with a slash in them, which `rename` would take for paths.
- The conversion of clock readings by `gmtime` and `localtime`: rotation stamps are local time and the cutoff is UTC; expiry is proved for stamps of one calendar.
- Services.Preconf: requires the configured directories to exist; what each stage does without them is in the stage's own contract.
- An answer of Preconf is a natural number, which is what the handler gives; the message field could also hold a negative one.
- Handlers.Network.PushAll: proved without other steps in between; the interleavings are in module Exchange.
- Handlers.Network.SendAll: proved without other steps in between; the interleavings are in module Exchange.
- Services.Allocate: requires the configured directories and the cold list to exist; MovCntFile has the error returns.
- Services.RankMain: requires the configured directories to exist.
- Services.RunDay: requires the configured directories to exist.
- Services.RankAndAsk: requires the configured directories to exist on both hosts.
- What a null pointer does after `atoi` gets it: the process is taken to end there, with any part of the output file written.
- Exchange.OwnedOnceIffNeverLost: a Preconf that comes before a group's last pushes are through is one step that loses what is unsent; the code's thread may still send a file it had already read.
- Handlers.Network.Day: the groups push between the lines of the list; pushes between the sends of one line are in module Exchange.
- Daily.Day: requires the configured directories to exist on every host, and takes what reaches a group and comes back as inputs; the group list can be read, and Services.RunDay is the day on which it cannot.
- Days.RunLoop: after a day on which main breaks it is started again; the run logs of a day are there in its morning.
- The RPCs for one file and one group end alike whenever they are made on the same day.
- Lines appended to the live log while a collection copies it: a collection is one step.
- A negative GROUP_LIMIT or CACHE_LIMIT, which the code compares as a large unsigned number.
- Configuration parsing, RPC plumbing, log message texts and `sleep`.
