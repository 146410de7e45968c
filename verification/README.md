# Verified models of the threaded programs and of the kernel's identity and limit calls

The repository holds course projects on operating systems. This project models the parts with the most
intricate behaviour and proves what they are for.

* **Parallel Game of Life** (`project3/life.cpp`). A parent and n workers pass RANGE, GO, GENDONE, STOP and
  ALLDONE through mailboxes of one slot with two semaphores each; a hand-made barrier precedes ALLDONE; the
  two grids have no lock. `LifeProtocol` is a transition system in which a step is one semaphore wait or
  post, one mailbox copy, one read of a cell or of the barrier counter, or one write, with any number of
  workers and generations. Every interleaving is a schedule, and the theorems hold for all of them: the
  invariant is in `LifeInvariant`, the steps keep it in `LifeSafety` (workers), `LifeParent` (parent) and
  `LifeGrids` (the grids), the results are in `LifeTheorems` and `LifeLiveness`; `LifeFootprint` shows that the
  steps touch no more memory than the theorem on data races says. `LifeBoard` has the reference rule,
  `LifeRules` what the rule is known for, `LifeArrays` the sequential functions on the two arrays.
* **Threaded string scan** (`project4/proj4.cpp`). `Strings` has the scan and what it counts, `StringMerge`
  the left-to-right merge of the threads' summaries and exactly when its count agrees with one scan of the
  file, `StringMaximum` the same for the longest run, `StringScan` the loops, `StringReads` short reads,
  `StringThreads` the whole threaded program.
* **Parallel sum** (`project3/addem.cpp`), in `Addem`. It and the string scan share the protocol in
  `CollectProtocol` and `CollectTheorems`; `Mailbox` treats one slot with any users, and `Partition` the
  split of a range that all three programs make.
* **Kernel calls** (`preproj2/sys.c`): `ProcessGroups` (setpgid, setsid), `Credentials` (the set*uid and
  set*gid calls), `Limits` (do_prlimit, prlimit64), `Priority` (setpriority, getpriority).

Some properties one would expect fail. These results are proved for the code as it is, each with the exact
condition:

* Life ends in a deadlock exactly when there are at least two workers and the stop test first holds after
  the very last generation. The board printed before it is still right.
* The threads' number of strings is too low exactly when a string is lost at a part or pending at the end.
  With at least four bytes to a part only false wholes lose strings: parts with an unprintable byte that the
  merge takes for one piece of a longer run.
* The threads' longest run is right exactly when no run, as the merge glues it, is too long, and one that is
  glued, or inside a part that is no false whole, is long enough. It comes out too long when two runs are
  glued across a false whole, and too short when the longest run lies inside false wholes only and no glued
  run is as long.
* Reads that are short in the middle of a file cut its strings where the buffer is padded: the buffered scan
  misses what joining the cut blocks would change, and its maximum is right exactly when no run across a cut
  is longer.
* `setpriority` can report success although a task refused, or "nothing found" although one was found:
  exactly when the code of the last refusal is -ESRCH. RLIMIT_CPU can end up with its soft limit above its
  hard limit: exactly when both are asked to be 0.

## Model

| member | source | states |
|---|---|---|
| `Partition.PartsTouch` | project3/life.cpp:174-189 | the parts follow each other without a gap from the first item to the last, each within the items |
| `Partition.PartSizes` | project3/life.cpp:174-189 | all parts have the quotient's size, and the last one the remainder on top |
| `Partition.PartEmptyIff` | project4/proj4.cpp:192-207 | a part is empty exactly when there are no items, or fewer items than parts and it is not the last |
| `Partition.PartsDisjoint` | project3/life.cpp:174-189 | no item is in two parts, so no two workers write the same line |
| `Partition.PartsCover` | project3/life.cpp:174-189 | every item is in some part |
| `Mailbox.StepRefinesQueue` | project3/life.cpp:398-408 | each wait, copy or post of any number of senders and receivers is one step of a queue of capacity one, or leaves the queue alone |
| `Mailbox.Alone` | project3/life.cpp:398-408 | while a thread is between its wait and its post both semaphores are 0 and no other thread is |
| `Mailbox.RunKeepsInv` | project3/life.cpp:398-408 | the mailbox invariant holds over every run |
| `Mailbox.FirstInFirstOut` | project3/addem.cpp:32-42 | what has been received is a prefix of what has been deposited, at most one message short, and the semaphores and the threads inside share one permit |
| `LifeBoard.CountIsLiveNeighbours` | project3/life.cpp:368-396 | the eight guarded tests count exactly the live neighbours on the board, given zeros just past its edge |
| `LifeBoard.RuleIsNextCell` | project3/life.cpp:335-343 | the chain of tests on the counter is the Life rule |
| `LifeRules.BlockDecides` | project3/life.cpp:335-343 | a cell lives next exactly when the three by three block around it, itself included, holds three live cells, or four of which it is one |
| `LifeRules.SquareStays` | project3/life.cpp:335-343 | a square of four cells stays as it is, anywhere on any board |
| `LifeRules.RowTurns` | project3/life.cpp:335-343 | a row of three becomes a column of three |
| `LifeRules.ColumnTurns` | project3/life.cpp:335-343 | and a column a row |
| `LifeRules.StillLife` | project3/life.cpp:319-349 | a square stays through any number of generations |
| `LifeRules.Blinker` | project3/life.cpp:319-349 | a row is back after every second generation, a column after the others |
| `LifeBoard.EvolutionEvolves` | project3/life.cpp:319-349 | repeating the rule gives a sequence of boards that starts at the input and follows the rule cell by cell |
| `LifeBoard.DeadStaysDead` | project3/life.cpp:282-292 | the dead board is followed by the dead board |
| `LifeBoard.FollowSame` | project3/life.cpp:294-303 | equal boards have equal successors |
| `LifeBoard.StopIsSound` | project3/life.cpp:233-243 | once the stop test holds every later generation shows the same board |
| `LifeArrays.Game.constructor` | project3/life.cpp:23-28 | the shared arrays start all 0 |
| `LifeArrays.Game.GetNumberOfNeighbors` | project3/life.cpp:368-396 | on the array the function returns the number of live neighbours on the board |
| `LifeArrays.Game.EightTests` | project3/life.cpp:368-396 | its eight tests, in order, are the tests the transition system makes one step each |
| `LifeArrays.Game.PlayLines` | project3/life.cpp:333-345 | a worker's lines of `after` become the next generation of `before`, no other cell changes, and the margin stays zero |
| `LifeArrays.Game.PlayCell` | project3/life.cpp:335-343 | one cell becomes the next cell and no other changes |
| `LifeArrays.Game.UpdateMatrix` | project3/life.cpp:274-280 | `before` becomes the board of `after`, with zeros outside |
| `LifeArrays.Game.IsAllZero` | project3/life.cpp:282-292 | true exactly when the board of `after` is dead |
| `LifeArrays.Game.HasNotChanged` | project3/life.cpp:294-303 | true exactly when the two arrays show the same board |
| `LifeSafety.BusyInRound` | project3/life.cpp:319-349 | a worker that computes or reports a generation is in the parent's present round and has been sent GO in it |
| `LifeSafety.RoundComplete` | project3/life.cpp:216-232 | at the last receipt of a round every worker has deposited one message in it; in the last round all workers are gone |
| `LifeSafety.AllDoneComesLate` | project3/life.cpp:347-364 | an ALLDONE gets a permit of the parent's mailbox only after all GENDONEs of the last generation were received |
| `LifeSafety.PassedNeedsAll` | project3/life.cpp:351-361 | past the barrier means all have arrived and the counter is n |
| `LifeSafety.CriticalSection` | project3/life.cpp:352-354 | at most one worker is between the wait and the post around the barrier counter |
| `LifeSafety.WorkerKeepsProtocol` | project3/life.cpp:306-366 | every step of a worker keeps the invariant on messages, semaphores and barrier |
| `LifeParent.ParentKeepsProtocol` | project3/life.cpp:161-256 | every step of the parent keeps it |
| `LifeGrids.WorkerKeepsGrids` | project3/life.cpp:333-345 | every step of a worker keeps the invariant on the two grids: what it has written is the next generation |
| `LifeGrids.RoundFillsBoard` | project3/life.cpp:212-232 | when all reports of a round are in, `after` shows the next generation |
| `LifeGrids.ParentKeepsGrids` | project3/life.cpp:194-251 | every step of the parent keeps the invariant on the grids, the stop test, the copy back and the print included |
| `LifeTheorems.StepKeepsInv` | project3/life.cpp:161-366 | the whole invariant is inductive over the steps of all threads |
| `LifeTheorems.RunKeepsInv` | project3/life.cpp:161-366 | it holds after every interleaving |
| `LifeTheorems.RoundRefinesLife` | project3/life.cpp:229-245 | when the parent decides after round k, `before` is k - 1 and `after` k applications of the rule to the input |
| `LifeTheorems.RoundStartsQuiet` | project3/life.cpp:194-210 | at the head of a round, where the board may be printed, `before` is the present generation; workers compute only between their GO and the end of the round |
| `LifeTheorems.PrintsFinalBoard` | project3/life.cpp:249-251 | the printed board is the one after all generations asked for, stopped early or not |
| `LifeTheorems.PrintsRepeatedRule` | project3/life.cpp:249-251 | the same, as the rule applied that many times to the input |
| `LifeTheorems.ReportsGenerations` | project3/life.cpp:235-250 | the number of generations reported is that of the first after which nothing lives or nothing has changed, or all |
| `LifeTheorems.MessagesInOrder` | project3/life.cpp:206-232 | rounds 1..G bring one GENDONE from each worker and nothing else, round G + 1 only ALLDONEs from all; between rounds their counter is 0 or n; no thread meets an unexpected message |
| `LifeTheorems.BarrierHolds` | project3/life.cpp:351-361 | no worker passes the barrier before all have deposited their last GENDONE and counted themselves, although the counter is tested outside the lock |
| `LifeTheorems.MailboxPermits` | project3/life.cpp:398-408 | a worker's mailbox has one permit: on a semaphore or with the thread inside |
| `LifeTheorems.ParentMailboxPermits` | project3/life.cpp:398-408 | so has the parent's, with n senders |
| `LifeTheorems.NoDataRace` | project3/life.cpp:194-247 | no thread writes a cell of a grid or a slot that the next step of another thread reads or writes |
| `LifeFootprint.WritesAreAll` | project3/life.cpp:161-408 | a step changes no cell and no slot but those it is said to write |
| `LifeFootprint.ReadsAreAll` | project3/life.cpp:161-408 | what a step does to the threads and to what it writes depends on no cell and no slot but those it is said to read |
| `LifeLiveness.BarrierProgress` | project3/life.cpp:351-361 | after the last generation no worker is stranded in the barrier |
| `LifeLiveness.ReceivingProgress` | project3/life.cpp:216-228 | while the parent waits for a report some thread can move |
| `LifeLiveness.StuckIsEndedIff` | project3/life.cpp:191-256 | a run that can go no further has printed the right board; all threads are gone if and only if n is 1 or the stop test does not first hold after the last generation |
| `LifeLiveness.StepWorks` | project3/life.cpp:161-366 | every step of every thread lowers a measure over rounds, messages and cells left |
| `LifeLiveness.RunsAreBounded` | project3/life.cpp:161-366 | so no run is longer than the measure at the start |
| `LifeLiveness.RunsGetStuck` | project3/life.cpp:161-366 | every run can be continued until no thread can move |
| `LifeLiveness.DeadlockIff` | project3/life.cpp:236-256 | a deadlock is reachable if and only if n is at least 2 and the stop test first holds after the last generation |
| `LifeLiveness.DeadlockUnavoidable` | project3/life.cpp:236-256 | in that case no interleaving ends |
| `LifeLiveness.DeadlockExample` | project3/life.cpp:361-365 | two workers, one generation, a dead board: a deadlock |
| `Strings.PrintableBytes` | project4/proj4.cpp:309-309 | a byte is printable when it is white space or a graphic character of the "C" locale |
| `Strings.CountIsStrings` | project4/proj4.cpp:405-419 | the counter of the scan is the number of maximal printable runs of at least four bytes |
| `Strings.LongestIsLongestRun` | project4/proj4.cpp:405-419 | its maximum is the length of a printable run, and no run is longer |
| `Strings.Join` | project4/proj4.cpp:208-256 | the scan of two pieces together, from the scans of each |
| `Strings.EndsCounted` | project4/proj4.cpp:307-330 | in a piece with an unprintable byte a prefix and a suffix of four or more are two strings |
| `StringMerge.FalseWholeIsShort` | project4/proj4.cpp:232-233 | a part taken for whole that is not has one to three printable bytes at both ends |
| `StringMerge.MergedCount` | project4/proj4.cpp:225-255 | merged count plus strings lost plus one if a string is pending is the count of one scan; `previous_end` is the suffix of the last part |
| `StringMerge.CountsAgreeIff` | project4/proj4.cpp:225-255 | the merged count is never too high, and right exactly when nothing is lost or pending |
| `StringMerge.LongPartsTellAll` | project4/proj4.cpp:232-255 | with parts of at least four bytes `previous_end` is at least four exactly when the run under way is, and equals it below four |
| `StringMerge.LongPartsAgreeIff` | project4/proj4.cpp:225-255 | with such parts the count is right exactly when no run of four or more reaches into a false whole from the left |
| `StringMaximum.MergedMaximum` | project4/proj4.cpp:232-248 | the merged maximum is the longest run of the file in which false wholes are replaced by their prefix; `maxLengthEnd` is the run at its end |
| `StringMaximum.MergedIsBest` | project4/proj4.cpp:232-248 | it is the best of what the parts offer: the run glued to the prefix, and the run inside unless the part is a false whole |
| `StringMaximum.OffersCover` | project4/proj4.cpp:232-248 | no part has a longer run inside than the file, and the file's longest run is inside a part or no longer than a glued one |
| `StringMaximum.MaximumAgreesIff` | project4/proj4.cpp:232-248 | for a file cut in any way: exactly when the merged maximum is right, too long, and too short |
| `StringMaximum.MaximumAgrees` | project4/proj4.cpp:232-248 | without a false whole it is the longest run of the file, across any number of parts |
| `StringMerge.PiecesEmptyFirst` | project4/proj4.cpp:192-207 | the parts put together are the file, and empty parts come first |
| `StringMerge.ThreadedCountIff` | project4/proj4.cpp:192-256 | for every file and number of threads the threads count at most the file's strings, all of them exactly when no part loses one and none is pending |
| `StringMerge.ThreadedCountLongIff` | project4/proj4.cpp:192-256 | the same for at least four bytes a thread, where only false wholes matter |
| `StringMaximum.ThreadedMaximum` | project4/proj4.cpp:192-256 | for every file and number of threads: the threads' maximum, and exactly when it is right, too long and too short; right without a false whole |
| `StringScan.MmapRegularRead` | project4/proj4.cpp:382-429 | the one-pass loop returns the file's number of strings and longest run, -1 if it has none |
| `StringScan.SumThread` | project4/proj4.cpp:284-336 | a thread's loop reports count, prefix, suffix and longest run of its range |
| `StringScan.MergeMessages` | project4/proj4.cpp:208-256 | the merging loop with its arrays computes the merge studied above |
| `StringScan.MergesPieces` | project4/proj4.cpp:220-256 | fed with the reports on the parts of a file it is the merge of those parts |
| `StringScan.RegularRead` | project4/proj4.cpp:338-380 | the buffered loop returns the strings and the longest run of what the buffer held, runs joined across reads |
| `StringScan.ScanBuffer` | project4/proj4.cpp:361-373 | one pass over the buffer continues the scan of everything before it |
| `StringScan.BufferedScanAgrees` | project4/proj4.cpp:360-376 | if only the last read is short, that is the count and the longest run of the file, for every buffer size: the padding adds nothing |
| `StringReads.ScansBlocks` | project4/proj4.cpp:360-376 | for reads of any lengths the scan finds the strings and the longest run of the blocks between short reads, one by one |
| `StringReads.ShortReads` | project4/proj4.cpp:360-376 | so the file has as many strings more as joining the blocks changes, and the maximum is never too long, and right exactly when no run across a cut is longer |
| `StringReads.ShortReadExample` | project4/proj4.cpp:360-376 | two reads of two bytes into a buffer of three: the only string is missed |
| `StringScan.CountExample` | project4/proj4.cpp:232-241 | eight bytes on which two threads miss the only string |
| `StringScan.MaximumExample` | project4/proj4.cpp:232-241 | twelve bytes on which three threads report 9 for a longest run of 5 |
| `StringScan.TooShortExample` | project4/proj4.cpp:232-236 | ten bytes on which one thread reports 1 for a longest run of 6 |
| `StringThreads.MergesThePieces` | project4/proj4.cpp:183-223 | for every interleaving the messages merged are the summaries of the parts, in order |
| `StringThreads.ThreadsAgreeWithScan` | project4/proj4.cpp:133-282 | for every interleaving: exactly when the threads' maximum is right, too long and too short, and, with at least four bytes each, exactly when their count is right; both are without a false whole |
| `CollectTheorems.StepKeepsInv` | project4/proj4.cpp:183-223 | the invariant of the two collecting programs is kept by every step |
| `CollectTheorems.RunKeepsInv` | project3/addem.cpp:98-143 | it holds after every interleaving |
| `CollectTheorems.OwnBoxesInOrder` | project4/proj4.cpp:217-223 | the parent of the string scan takes each thread's own answer, in thread order |
| `CollectTheorems.SharedBoxOnce` | project3/addem.cpp:127-134 | the parent of the sum takes each worker's answer exactly once, in order of deposit |
| `CollectTheorems.NoCrossTalk` | project4/proj4.cpp:284-336 | in the two-way use of a slot the parent never reads back a RANGE and a worker never an ALLDONE |
| `CollectTheorems.NoDeadlock` | project4/proj4.cpp:183-223 | a run that can go no further has ended with all threads gone |
| `CollectTheorems.StepWorks` | project3/addem.cpp:98-143 | every step lowers a measure |
| `CollectTheorems.RunsAreBounded` | project3/addem.cpp:98-143 | so no run is longer than the measure at the start |
| `CollectTheorems.RunsEnd` | project3/addem.cpp:98-143 | every run can be continued until all threads are gone |
| `Addem.SumThread` | project3/addem.cpp:44-59 | a worker's loop adds the numbers of its range, and every value its sum takes on the way |
| `Addem.FullSum` | project3/addem.cpp:125-134 | the parent's loop adds the answers, and every value its sum takes on the way |
| `Addem.SumAnyOrder` | project3/addem.cpp:127-134 | the answers of all workers have the same sum in any order |
| `Addem.QuotientTruncates` | project3/addem.cpp:108-108 | the range per worker is cut towards zero, for negative maxima too |
| `Addem.AllParts` | project3/addem.cpp:107-123 | the ranges add up to maxValue (maxValue + 1) / 2 for every maximum and number of threads, 0 below 0 |
| `Addem.CollectsTheSum` | project3/addem.cpp:98-143 | for every interleaving that is the total the parent collects |
| `Addem.WorkerHolds` | project3/addem.cpp:48-52 | every value of a worker's sum in its loop over its range is a partial sum |
| `Addem.ParentHolds` | project3/addem.cpp:125-134 | in every state of every run so is what the parent has added up |
| `Addem.FitsIntIff` | project3/addem.cpp:48-52 | all partial sums fit a 32-bit int, for any order of arrival, exactly when maxValue is at most 65535; below 0 they are 0 |
| `Addem.FullSumFits` | project3/addem.cpp:125-134 | so with maxValue at most 65535 the parent's sum never leaves an int in any run |
| `ProcessGroups.System.SetPgid` | preproj2/sys.c:1022-1091 | success exactly under the conditions of setpgid() in POSIX.1-2017, the new table, and the error in the code's order |
| `ProcessGroups.System.SetSid` | preproj2/sys.c:1158-1189 | success exactly when the caller leads no session and no group has its pid; the new session |
| `ProcessGroups.SetPgidMoves` | preproj2/sys.c:1080-1085 | a call that is allowed puts the target into the group and changes nothing else; any other changes nothing |
| `ProcessGroups.WhoMayMove` | preproj2/sys.c:1046-1075 | exactly who moves a process into which other group: itself or its parent in the same session before an exec, into one named after it or of its session, and never a leader |
| `ProcessGroups.OthersStay` | preproj2/sys.c:1080-1085 | and nobody but the target |
| `ProcessGroups.GroupsWithinReach` | preproj2/sys.c:1022-1091 | by runs of calls of its own a process that leads no session can come into exactly its present group, one of its own and those of its session; a leader stays |
| `ProcessGroups.JobControl` | preproj2/sys.c:1046-1058 | parent and new child may both put the child into a group of its own, in either order; after an exec the parent cannot |
| `ProcessGroups.WhoLeadsAfterSetSid` | preproj2/sys.c:1158-1189 | after setsid everybody leads but a process whose pid still names a group |
| `ProcessGroups.NewChildMakesSession` | preproj2/sys.c:1158-1189 | a new child can always make its own session |
| `ProcessGroups.RegroupKeeps` | preproj2/sys.c:1061-1082 | a successful setpgid keeps every group within one session and all leaders leading |
| `ProcessGroups.EventKeeps` | preproj2/sys.c:1022-1189 | so does every call and every fork, exec, exit and thread |
| `ProcessGroups.RunKeeps` | preproj2/sys.c:1022-1189 | over every run |
| `ProcessGroups.LeaderForLife` | preproj2/sys.c:1055-1058 | a session leader keeps its session and group, its own pid, over every run until it exits |
| `ProcessGroups.NewSessionIsFresh` | preproj2/sys.c:1158-1189 | after setsid the caller is alone in its session and group |
| `ProcessGroups.SessionsDoNotMix` | preproj2/sys.c:1022-1189 | a process changes session only by making a new one |
| `Credentials.Task.SetRegid` | preproj2/sys.c:578-620 | the error code, and new ids or none, by permission |
| `Credentials.Task.SetGid` | preproj2/sys.c:627-649 | the same for setgid |
| `Credentials.Task.SetReuid` | preproj2/sys.c:695-743 | the same for setreuid, with user record and security module |
| `Credentials.Task.SetUid` | preproj2/sys.c:756-790 | the same for setuid |
| `Credentials.Task.SetResuid` | preproj2/sys.c:797-845 | the same for setresuid |
| `Credentials.Task.SetResgid` | preproj2/sys.c:862-899 | the same for setresgid |
| `Credentials.Task.SetFsuid` | preproj2/sys.c:920-948 | the id in force before is returned in every case; the change by permission |
| `Credentials.Task.SetFsgid` | preproj2/sys.c:953-980 | the same for setfsgid |
| `Credentials.AnswersRespected` | preproj2/sys.c:578-980 | without memory or against the security module nothing changes, without a user record the real id does not; with everything granted every call succeeds |
| `Credentials.ErrorOrder` | preproj2/sys.c:695-845 | -ENOMEM before -EPERM before -EAGAIN |
| `Credentials.AsksAndGets` | preproj2/sys.c:601-619 | after setreuid and setresuid an id is the one asked for, or as it was for -1; the fs id follows the effective one |
| `Credentials.SetReDrops` | preproj2/sys.c:680-733 | setreuid drops privileges for good exactly when it sets the real id, or the effective id to anything but the real one; otherwise the saved id stays |
| `Credentials.OneCallOfSetRe` | preproj2/sys.c:695-743 | exactly what one setreuid can do without the capability |
| `Credentials.OneCallOfSet` | preproj2/sys.c:756-790 | exactly what one setuid can: switch between the real and the saved id |
| `Credentials.OneCallOfSetRes` | preproj2/sys.c:797-845 | exactly what one setresuid can: any choice from the three ids |
| `Credentials.OneCallOfSetFs` | preproj2/sys.c:920-948 | exactly what one setfsuid can: any of the four ids |
| `Credentials.PrivilegedReachesAll` | preproj2/sys.c:695-980 | with the capability a task can come to any credentials |
| `Credentials.NothingGained` | preproj2/sys.c:695-980 | over every run of calls without the capability neither {real, effective, saved} nor that with the fs id gains a member |
| `Credentials.ReachableIds` | preproj2/sys.c:695-980 | without the capability the effective ids a task can come to are exactly its real, effective and saved ids, the fs ids exactly those and its fs id |
| `Credentials.ReachableCredentials` | preproj2/sys.c:695-980 | the credentials a task can come to without the capability are exactly those with no real, effective or saved id it lacks and the fs id among the three, and its own; provided none of its ids is (uid_t) -1 |
| `Credentials.SettledForGood` | preproj2/sys.c:695-790 | after a capable setuid(u) or a successful setreuid(u, u) all four ids are u through every later run without the capability |
| `Credentials.SwapAndBack` | preproj2/sys.c:680-743 | privileges dropped by swapping real and effective id come back by swapping again |
| `Limits.Process.DoPrlimit` | preproj2/sys.c:1452-1516 | the error in the code's order, the new limits, the former limit, and what the CPU timer is set to |
| `Limits.Process.CheckPermission` | preproj2/sys.c:1519-1539 | without the capability only on oneself or on a task wholly under the caller's real ids |
| `Limits.Process.Prlimit64` | preproj2/sys.c:1541-1581 | the same through the 64-bit conversions |
| `Limits.NarrowingSaturates` | preproj2/sys.c:1418-1449 | the conversion from 64 bits saturates and never truncates, for long words of either size; it is monotone and undoes the other one |
| `Limits.RoundTrip` | preproj2/sys.c:1427-1449 | a limit survives the way to 64 bits and back, and so does its order |
| `Limits.DisorderedRequest` | preproj2/sys.c:1439-1463 | a 64-bit request is refused for its order exactly when it is disordered with a hard limit that fits a long |
| `Limits.RunKeepsOrder` | preproj2/sys.c:1452-1516 | over every run each soft limit is at most the hard one, but for RLIMIT_CPU at (1, 0) |
| `Limits.Disorder` | preproj2/sys.c:1485-1493 | that exception arises exactly from a request for (0, 0) |
| `Limits.HardLimitsFall` | preproj2/sys.c:1479-1481 | hard limits never rise without the capability |
| `Limits.ReachableLimits` | preproj2/sys.c:1452-1516 | without the capability exactly the ordered pairs within the hard limit can be reached |
| `Limits.AnswersRespected` | preproj2/sys.c:1452-1516 | a call changes no other limit, and none for a dead task or against the security module |
| `Limits.RaisableLimits` | preproj2/sys.c:1452-1516 | with the capability exactly the ordered pairs within the ceiling for files can be reached, above the present ones too |
| `Limits.RaisingNeedsCapability` | preproj2/sys.c:1479-1481 | a call raises a hard limit if and only if it has the capability |
| `Limits.WhoMayLimit` | preproj2/sys.c:1519-1539 | without the capability the limits of another task are open to exactly those whose real ids are all it could ever act as |
| `Limits.RestoreIsNeutral` | preproj2/sys.c:1541-1581 | writing back what was read is granted and changes nothing, exactly when the limit is ordered and asks for some CPU time |
| `Priority.Task.SetOnePrio` | preproj2/sys.c:149-172 | one task: the code and the nice value after it |
| `Priority.SetProcess` | preproj2/sys.c:191-198 | the code and the nice values after a call about one process |
| `Priority.SetGroup` | preproj2/sys.c:199-207 | after a call about a process group |
| `Priority.SetUser` | preproj2/sys.c:208-224 | after a call about a user |
| `Priority.SetPriority` | preproj2/sys.c:174-233 | the whole call: which tasks, the clamped value, the code of the scan, every nice value |
| `Priority.WholeScan` | preproj2/sys.c:191-224 | the scan leaves the nice values the runs below are made of |
| `Priority.NiceNeverFalls` | preproj2/sys.c:157-160 | over every run without the permission no nice value falls |
| `Priority.StrangersLeaveAlone` | preproj2/sys.c:133-147 | over every run without the capability no task of another user or user namespace changes |
| `Priority.ReachableNices` | preproj2/sys.c:133-172 | exactly what a task can make of another's nice value, by user, capability and permission |
| `Priority.HookRespected` | preproj2/sys.c:161-165 | a refusal of the security module is respected |
| `Priority.Selection` | preproj2/sys.c:191-224 | which tasks a call is about, with 0 for the caller, its group and its user |
| `Priority.ClampedIsNearest` | preproj2/sys.c:186-189 | the value set is the nearest in -20..19 |
| `Priority.LastRefusalDecides` | preproj2/sys.c:149-172 | no refusal: 0, or -ESRCH if nothing matched; else the last refusal's code, except that -ESRCH becomes 0 when a later task accepts |
| `Priority.PlainAnswerIff` | preproj2/sys.c:149-233 | -ESRCH means nothing matched and 0 that all accepted, exactly when the last refusal is not -ESRCH |
| `Priority.ForgottenRefusal` | preproj2/sys.c:166-168 | two tasks, one of which refuses, and the call reports success |
| `Priority.GetGroup` | preproj2/sys.c:265-274 | the best priority in a process group, in 1..40, or -ESRCH |
| `Priority.GetUser` | preproj2/sys.c:275-295 | the best priority among a user's tasks |
| `Priority.GetPriority` | preproj2/sys.c:241-301 | the whole call |
| `Priority.ReadsBack` | preproj2/sys.c:174-301 | after success, unless the last refusal is -ESRCH, getpriority on the same tasks can only answer 20 minus the clamped value |

## Left out

Of the threaded programs:

- Argument parsing, reading and mapping files, printing (but for the cells of the last board), `cin.get`, and the checks of system calls that fail.
- The print of the board at the head of each round is not a step of the model; `LifeTheorems.RoundStartsQuiet` says what it shows and that no worker computes then.
- No thread, no generation, or an empty board in Life, and boards that fill all 40 lines or columns: the guards let through one line and column past the board.
- The reads at index -1 that C evaluates before the guard that discards them.
- pthread and semaphore internals: a wait is a guarded decrement, a post an increment, and creation and join are conditions on program counters. The unlocked test of `barrierCount` is one atomic read.
- Message fields nobody reads (`iFrom`) and those the sender leaves unset, which are 0 here.
- `isprint` and `isspace` are those of the "C" locale; bytes from 128 up are unprintable.
- Files of 2 GB and more, whose size does not fit an int.
- StringScan.RegularRead: `read` is a sequence of chunks no longer than the buffer; read errors are not modelled.
- The parallel sum adds any message it receives and its workers do not check theirs; the model takes only answers and fails otherwise. `CollectTheorems.NoCrossTalk` proves that the difference is never met.
- The project2 modules and the project1 shell.

Of the kernel calls:

- Security hooks, capabilities, memory and user records, pid lookup across namespaces: their answers are parameters.
- Constants of headers that are not in the repository (error numbers, RLIM_NLIMITS 16, RLIMIT_CPU 0, RLIMIT_NOFILE 7, the PRIO_ values, `(uid_t) -1`) have their Linux x86 values.
- What security hooks do to capabilities when ids change; whether a task has the capability is given anew at each call.
- fork, exec and exit are environment steps with what POSIX says of groups and sessions; a new pid is in use neither as pid nor as group nor as session. Controlling terminals, `proc_sid_connector` and autogroups are not modelled.
- PF_NPROC_EXCEEDED and process counts in `set_user`.
- Copies to and from user memory, and their -EFAULT; `update_rlimit_cpu` is the value handed to it.
- getrlimit, setrlimit and old_getrlimit, one-line uses of do_prlimit or a clamp; reboot, uname, times, prctl, getpgid, getsid, getresuid and getresgid.
- Credentials.ReachableCredentials: for a task one of whose ids is (uid_t) -1 only one direction, since it cannot ask for that id by name.
- ProcessGroups.System.SetPgid: stated for tables in which no group spans two sessions, as `ProcessGroups.RunKeeps` proves of every run from a consistent table.
- Locking: each kernel call is one step.
