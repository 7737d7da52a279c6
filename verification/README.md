# Verification of the task spooler

Task spooler is a queue for Unix commands. One server process keeps the jobs; every client is a
process of its own that talks to the server over a socket. This project models the parts of it in
which state is kept and changed, in Dafny, and proves what they promise.

* **The server.** The run queue, the list of finished jobs, the list of waiting clients, the slot
  counter, the claim table of the GPUs and the array of connections (`jobs.c`, `server.c`, `gpu.c`).
  `JobSpec` and `ServerSpec` give every operation as a function of the whole state; `None` is the end
  of the process, by a call of `error` or by a step C leaves undefined. A run is any succession of
  connections, messages, disconnections and launches in which clients keep to the protocol
  (`ServerSpec.ClientOk`): a connection that holds a job asks nothing more, reports only after it was
  told to run, or closes. `JobTable` and `ServerLoop` are the same code in its own form, classes whose
  methods update fields in loops, tied to these functions; `JobList` is the surgery on the `next` links,
  tied to the same functions.
  Over all runs the project proves slot conservation, the match of queue and connections, what each
  client is told, that no wait is lost, that every wait is answered with the errorlevel its job ended with,
  first-fit scheduling and freedom from deadlock, the spreading of failures through dependencies, the
  exclusive use of GPUs, and exactly which events end the server. `Requests` says which job each request
  means, in every state.
* **JSON output.** The tree, printer and parser of `cjson/cJSON.c`. `JsonTree`, `JsonParse` and
  `JsonStrings` say what is printed and parsed; `JsonPrinter` and `JsonParser` are the buffers with
  their cursors. `JsonGrammar` is the grammar of RFC 8259 and `JsonMeaning` what its texts stand for:
  everything printed is such a text, and every such text is read as what it means, up to the nesting
  limit. `JsonAcceptance` says what is taken beyond the grammar. The print buffer is never overrun and
  printing fails exactly when the room is not there, the allocation of the string decoder suffices, the
  sibling list refines a sequence, and comparison is equality up to the order of members.
* **The last lines of a file.** The backward seek of `tail.c`.

Where the code does less than its intent, the code is modelled as it is:

* `job_finished` ends the server when no slot is busy, even for a job that never ran
  (`HaltingRuns.OversizedJobEndsServer`) or a job of no slots that ran alone (`HaltingRuns.NoSlotsEndServer`);
  so does the refusal of a job while nothing runs (`HaltingRuns.RefusalEndsServer`).
  `Halting.HaltsExactly` lists all events that end it.
* A dependency whose client is still held does not block (`FailureRuns.UnblockedSettled`), so a job can
  run before the one it depends on (`HeldRuns.HeldDependencyOvertaken`).
* `s_remove_job` checks the waiters on job 0 instead of those on the removed job, so the removal of an
  awaited job loses the wait (`WaitInvariant.RunLosesNone`, `HaltingRuns.RemovalLosesWait`). Job 0 itself
  cannot be removed while it is queued, because it is always the head (`Halting.RunRefusesZero`).
* `s_remove_job` tells the errorlevel -1 also for a job that has ended well, so its removal from the finished list
  makes the queued jobs that depend on it fail (`Requests.StoredRemovalFails`).
* `s_move_urgent` follows a null pointer when its job is the head of a longer queue
  (`HaltingRuns.UrgentHeadEndsServer`).
* `job_finished` gives back the devices a job carries even if it never ran. A job that passed the device
  test, but then was blocked or did not fit, carries ids another job may have been launched on since; when
  its client goes away, these devices count as free (`GpuLost.ClaimLost`). `GpuRuns.RunGpuExactly` says
  exactly which runs are safe. A job that never passed the test carries the ids -1, and its end ends the
  server (`HaltingRuns.UntakenDevicesEndServer`), as does the launch of a job with a device fixed by the
  user (`-g`) that does not exist (`HaltingRuns.ForeignDeviceEndsServer`).
* A line count that is reached exactly at the start of a chunk can leave the cursor of `tail.c` in the
  middle of a line; `Tail.SeekAtLastLines` says for which files, `Tail.LongLineCut` gives one.
* `-d` can record one job and count the errorlevel of another: when it means no queued job it records the newest
  stored one, but counts the last errorlevel unless that job is newer than the last that ended
  (`Requests.DependsOnLast`, `Endings.RunLastDep`).
* `parse_number` looks at 63 characters, so a longer number makes a document fail, and `parse_string` keeps a
  string only up to its first NUL (`JsonDocument.DocumentReads`); a \u without four hexadecimal digits cuts it
  off (`JsonAcceptance.StringTaken`).
* `cJSON_Compare` does not take an object for equal to a copy of itself when members of the same key differ
  (`JsonCompare.SameEquivalence`, `JsonCompare.OneAndTwo`), and on integers from 2^52 - 1 on it is not
  transitive (`JsonCompare.TransitiveBelow`).

## Model

| member | source | states |
|---|---|---|
| `ServerInvariant.RunCore` | server.c:222-303 | At every point of every run the slot counter equals the sum of the slots of the running jobs, ids are unique over both lists, recorded dependencies are older than their owner, and the run queue is matched one to one by the connections that hold a job. |
| `ServerInvariant.StepCore` | server.c:222-303 | One event (a connection, a message, a disconnection, a launch) keeps that invariant, however it interleaves with others. |
| `ServerInvariant.ReadCore` | server.c:363-543 | Every message a well-behaved client can send keeps it. |
| `ServerInvariant.EnqueueCore` | server.c:387-396 | NEWJOB keeps it, also when the job is refused at once and its connection cleaned up. |
| `ServerInvariant.RemoveJobCore` | server.c:457-477 | REMOVEJOB keeps it: the connection dropped is the one of the job removed. |
| `ServerInvariant.DropConnsOk` | server.c:463-474 | The loop that skips an index after each removal still leaves no connection with the removed id and drops no other. |
| `ServerInvariant.EndJobCore` | server.c:442-450 | The end of a job keeps it. |
| `ServerInvariant.RemoveConnectionCore` | server.c:318-329 | Shifting a connection out is always possible and keeps it. |
| `ServerInvariant.DisappearCore` | server.c:331-361 | The cleanup after a disconnection keeps it. |
| `ServerInvariant.StartJobCore` | server.c:284-291 | The job a launch has chosen is found with a connection, so the index -1 is never used, and marking it running restores the slot sum that next_run_job left one job ahead. |
| `ServerInvariant.WakeAllCore` | server.c:293-298 | The wake loop ends, finds a connection for every job it wakes, and leaves no held job. |
| `ServerInvariant.LaunchCore` | server.c:284-299 | A whole launch keeps the invariant. |
| `ServerRounds.RoundSteps` | server.c:229-300 | A round of the loop is a succession of events, so all that holds at every point of every run holds at every return to select. |
| `ServerRounds.RoundCore` | server.c:229-300 | A round keeps the invariant. |
| `ServerRounds.RunGoesOn` | server.c:229-300 | A run may be continued by the events of a round. |
| `ServerRounds.ReadShrinks` | server.c:268-281 | Reading a message never adds a connection, which is why the loop over the connections ends. |
| `Slots.RunWithoutTrim` | jobs.c:829-838 | Without a lowering of the limit the running jobs never take more slots than there are. |
| `Slots.BusyMoves` | jobs.c:909-917 | The slot counter grows only at a launch and never beyond the limit, so above the limit it only falls; it gets there only by a change of the limit itself. |
| `Slots.RunLimit` | jobs.c:1587-1592 | At every point of every run the slot limit is the one of the last request that reached the server and was positive, or the first one. |
| `Waiting.EndAnswers` | server.c:442-450 | When a job ends every client waiting for it gets one WAITJOB_OK with its errorlevel, in registration order; other waiters stay; a job stored only for waiters is gone from the finished list. It also says exactly when the end goes through. |
| `Waiting.CheckNotifyAnswers` | jobs.c:1460-1487 | check_notify_list, which restarts on a list it changes, answers and removes exactly the waiters on the ended job, in order, and drops a job kept only for them with its last answer. |
| `Waiting.NotEndedYet` | jobs.c:1460-1487 | While the job has not ended it changes nothing. |
| `Waiting.NobodyWaits` | jobs.c:1460-1487 | When nobody waits for the job it changes nothing. |
| `Waiting.RetireAnswers` | jobs.c:1058-1068 | Storing the ended job and answering its waiters together leave it stored only if it is to be kept. |
| `WaitInvariant.RunWait` | jobs.c:1489-1534 | At every point of every run with a finished limit of at least two, every waiter names a job of the run queue, or a job that was removed while it was awaited and is gone for good; it sits on an open connection without a job, one wait per socket; the finished list holds only kept jobs, within the limit. |
| `WaitInvariant.RunLosesNone` | jobs.c:1353 | No wait is ever lost in a run if and only if no event of it removes an awaited job. |
| `WaitInvariant.StepLoses` | jobs.c:1353 | An event that the server survives makes the first lost wait exactly when it removes an awaited job. |
| `WaitRuns.RunAnswered` | jobs.c:1460-1534 | Over whole runs: a client that waits and stays, for a job nobody removes, is told nothing while the job is queued, and once the job is gone it was told exactly once, the errorlevel the job ended with. |
| `WaitRuns.StepWaiter` | server.c:222-303 | One event either ends the job and answers the waiter, or leaves its wait alone. |
| `WaitRuns.StepUndisturbed` | server.c:222-303 | An event of another connection that ends no job answers nobody on this socket and withdraws no wait. |
| `Endings.RunAnsweredAtOnce` | jobs.c:1489-1585 | Over whole runs: a wait for a job that has ended and is stored is answered at once, with the errorlevel that job ended with in the history of the run (its ENDJOB, -1 after a disconnection or a refusal). Without an id the job is the one of the stored jobs that ended last, if the queue is empty or, for the running job, no slot is busy. Every other wait is sent no errorlevel. |
| `Endings.RunLogged` | jobs.c:1003-1069 | At every point of every run each stored job has the errorlevel and the skip it ended with in that history, the stored jobs are in the order in which they ended, and what the server remembers of the last end is the last end, with -1 after a removal. |
| `Endings.StepLogged` | server.c:222-303 | One event keeps that. |
| `Endings.StoredDropLogged` | jobs.c:1288-1366 | A stored job is marked before it is removed; of all others the history stays right. |
| `Endings.RunLastDep` | jobs.c:691-724 | What -d counts when it means no job of the queue: how the newest stored job ended, if that job is newer than the last that ended, and otherwise how the last job ended. |
| `Requests.WaitsForId` | jobs.c:1489-1534 | With an id: a wait for a queued job is registered, one for a stored job is answered with its errorlevel, one for any other with a line of text. |
| `Requests.WaitsForLast` | jobs.c:1502-1518 | Without an id the last job of the queue is waited for, and if the queue is empty the job stored last. |
| `Requests.WaitsForRunning` | jobs.c:1536-1585 | The wait for the running job takes the head of the queue while slots are busy, else the job stored last; with busy slots and an empty queue the process ends. |
| `FirstJob.RunZeroFirst` | jobs.c:1288-1366 | At every point of every run job 0, while it is queued, is the head of the queue, whatever URGENT and SWAP did. |
| `WaitInvariant.StepWait` | server.c:222-303 | One event keeps that, and adds to the lost jobs exactly an awaited job it removes. |
| `WaitInvariant.EndJobWait` | jobs.c:1003-1069 | The end of a job keeps it. |
| `WaitInvariant.DisappearWait` | server.c:331-361 | A disconnection keeps it: a client that waits takes its registration with it. |
| `WaitInvariant.RemoveMsgWait` | jobs.c:1288-1366 | A removal that does not take out an awaited job 0 goes through and keeps it, with the removed job among the lost ones when it was awaited. |
| `WaitInvariant.RemoveNotifiesNobody` | jobs.c:1353 | check_notify_list(0), which s_remove_job calls on the zeroed message, then finds nobody. |
| `Halting.HaltsExactly` | server.c:222-303 | The process ends at an event if and only if one of the listed guards holds: a job ends or is refused while no slot is busy or with device ids out of range, URGENT names the head of a longer queue, job 0 is removed while awaited and not kept, or the first job that can be launched has devices fixed by the user that do not exist. |
| `Halting.RunHaltsExactly` | server.c:222-303 | The same at every point of every run with a finished limit of at least two; there no removal ends the process. |
| `Halting.RunRefusesZero` | jobs.c:1333-1341 | A request to remove job 0 is refused at every point of every run where job 0 is queued, so check_notify_list(0) never meets it. |
| `Halting.EndHalts` | jobs.c:1003-1016 | The end of a job or its disconnection ends the process exactly when no slot is busy or its device ids are out of range. |
| `Halting.EnqueueHalts` | server.c:387-396 | NEWJOB ends the process exactly when the job is refused and its end would. |
| `Halting.UrgentHalts` | jobs.c:1604-1637 | URGENT ends the process exactly when it names the head of a queue of more than one job. |
| `Halting.RemoveHalts` | jobs.c:1288-1366 | REMOVEJOB ends the process exactly when it removes the awaited job 0 and that job is not to be kept. |
| `Halting.LaunchHalts` | jobs.c:909-917 | A launch ends the process exactly when, with a slot free, the first job that waits, has its devices, is not blocked and fits has devices fixed by the user that do not exist. |
| `Halting.RemovalKeepsWaits` | jobs.c:1288-1366 | A removal loses a wait exactly when the removed job is awaited and is not job 0. |
| `HaltingRuns.OversizedJobEndsServer` | jobs.c:1003-1009 | A concrete family of runs: a job that asks for more slots than exist is never started, and when its client gives up while nothing runs the server ends. |
| `HaltingRuns.RefusalEndsServer` | server.c:387-396 | A server with room for no job refuses the first submission and ends with it. |
| `HaltingRuns.NoSlotsEndServer` | jobs.c:1003-1009 | A job of no slots runs alone, and its regular end ends the server. |
| `HaltingRuns.UrgentHeadEndsServer` | jobs.c:1631-1635 | A run for any two requests: two jobs are queued and URGENT names the first. |
| `HaltingRuns.RemovalLosesWait` | jobs.c:1353 | A run for any two requests: a client waits for the second job, another removes it, and the wait is for a job that is gone. |
| `HaltingRuns.UntakenDevicesEndServer` | jobs.c:1013-1016 | While one job runs, another that never got devices still carries the ids -1; when its client goes away the server ends. |
| `HaltingRuns.ForeignDeviceEndsServer` | jobs.c:909-917 | A job with a device that does not exist ends the server when it is to be launched. |
| `Reach.AfterIsRun` | server.c:222-303 | Events that are possible one after the other from an idle server are a run in the sense of all theorems. |
| `ProtocolRuns.RunMail` | server.c:387-396 | At every point of every run each job has been told nothing while its client is held, exactly NEWJOB_OK while it is queued or allocating, NEWJOB_OK then one RUNJOB while it runs, all on its own connection, and afterwards one complete exchange: nothing, one answer, or an acceptance and one order to run. |
| `ProtocolRuns.StepMail` | server.c:222-303 | One event keeps that. |
| `ProtocolRuns.EnqueueMail` | server.c:387-396 | NEWJOB is answered by NEWJOB_OK, by nothing when the client waits, or by NEWJOB_NOK. |
| `ProtocolRuns.WakeAllMail` | server.c:293-298 | Each client woken gets the NEWJOB_OK it was waiting for. |
| `ProtocolRuns.LaunchMail` | server.c:284-299 | A launched job gets its RUNJOB on its own connection. |
| `ProtocolRuns.EndStates` | jobs.c:1003-1069 | The end of a job takes that job out of the run queue and leaves the state of all others. |
| `ProtocolRuns.RemoveStates` | jobs.c:1288-1366 | A removal takes the removed job out of the run queue and leaves the state of all others. |
| `LifeCycle.RunForward` | jobs.c:322-330 | Over any stretch of any run a job only moves forward: held, then waiting, then running, then gone for good; no id is used twice. |
| `LifeCycle.RunNeverAgain` | jobs.c:313-319 | A running job is never queued, allocating or held again. |
| `LifeCycle.StepForward` | server.c:222-303 | One event moves every job forward or not at all. |
| `Scheduling.FirstFit` | jobs.c:829-926 | With a slot free, next_run_job picks the first job in list order that waits, passes the device test, has no queued, allocating or running dependency, and fits; it picks none exactly when there is none; the order of the queue stays. |
| `Scheduling.ScanFirstFit` | jobs.c:863-922 | The same for the scan from any position, although the device ids of jobs passed over are overwritten on the way. |
| `Scheduling.OldestUnblocked` | jobs.c:885-907 | When nothing runs, the waiting job with the least id is never blocked. |
| `Scheduling.LaunchProgress` | jobs.c:829-926 | Deadlock freedom of a CPU build: when jobs wait, nothing runs and every waiting job asks for no more slots than there are, the launch starts one, whatever the order of the queue. |
| `Scheduling.RunProgress` | jobs.c:829-926 | The same at every point of every run. |
| `Fifo.RunLaunchesInOrder` | jobs.c:829-926 | In CPU runs of one-slot jobs without dependencies, held jobs, URGENT or SWAP, jobs are launched in increasing order of their ids. |
| `Fifo.RunFifo` | jobs.c:590-606 | The invariant behind it: the queue is sorted, and every launched job is older than every waiting one. |
| `Dependencies.NotifyEffect` | jobs.c:1272-1284 | notify_errorlevel raises the recorded error of exactly the named jobs, and only for a nonzero errorlevel. |
| `Dependencies.AddEffect` | jobs.c:676-749 | The dependency loop records the dependencies asked for, -d among them, and makes exactly the queued jobs it recorded notify the new job. |
| `Dependencies.AddError0` | jobs.c:676-745 | The error recorded at submission is zero exactly when no dependency is unknown or already failed, and no -d found a failure as the last result. |
| `Failures.NewJobDeps` | jobs.c:640-795 | A submission keeps the links between dependencies and notification lists. |
| `Failures.LeaveDeps` | jobs.c:1019-1069 | A job that leaves tells exactly its dependents, and the bookkeeping of all others stays right. |
| `FailureRuns.RunToldErrorlevel` | jobs.c:1102-1122 | In runs with no held jobs and no removal of finished jobs, the errorlevel sent with RUNJOB is zero exactly when every dependency was known and ended with errorlevel 0, and every last result that -d stood for was 0. |
| `FailureRuns.RunSkips` | client.c:128-176 | In such runs a -W job that reported its end was skipped exactly when a dependency had failed. |
| `FailureRuns.RunFailureSpreads` | jobs.c:1272-1284 | One failure reaches every job that depends on that very job through a chain of -W jobs, whether these have ended or not: an order to run tells each of them a nonzero errorlevel, upon which its client skips, and each that ended was skipped or its client went away. |
| `FailureRuns.RunFail` | jobs.c:1272-1284 | The invariant behind these: what is recorded for every queued job is what the history says about its dependencies. |
| `FailureRuns.StepFail` | server.c:222-303 | One event keeps it. |
| `FailureRuns.UnblockedSettled` | jobs.c:885-907 | A job that is not blocked has a known dependency that has not ended if and only if it depends on a held job of the queue. |
| `FailureRuns.LaunchedSettled` | jobs.c:885-907 | So a job launched while nobody is held has no dependency left that has not ended. |
| `HeldRuns.HeldDependencyOvertaken` | jobs.c:896-898 | A run in which it has: the client of a job is held, another job that depends on it is queued and launched first. |
| `GpuRuns.RunExclusive` | jobs.c:860-917 | In runs with only automatic GPU jobs, as long as no event ended a waiting job that carries claimed ids, running jobs hold pairwise disjoint devices, each as many different ones as it asked for, and the claim table marks exactly their union. |
| `GpuRuns.RunGpuExactly` | jobs.c:1013-1016 | The claims are exact throughout such a run if and only if every job that ends in it runs or carries no claimed id. |
| `GpuLost.ClaimLost` | jobs.c:1013-1016 | A run that fails: on one device with two slots, a blocked job keeps the id of its device test, another job is launched on that device, the client of the blocked one closes, and the device of a running job counts as free. |
| `GpuRuns.RunGpu` | jobs.c:860-917 | The invariant behind it, at every point of every such run. |
| `GpuRuns.StepGpu` | server.c:222-303 | One event keeps it if and only if it does not end a waiting job that carries claimed ids. |
| `GpuRuns.LaunchGpu` | jobs.c:860-917 | A launch never fails on a device id and keeps it, although tentative ids are copied into jobs that then fail the other tests. |
| `GpuRuns.EndGpu` | jobs.c:1013-1016 | The end of a job keeps it if and only if the job runs or carries no claimed id. |
| `GpuExclusive.UnclaimedPick` | jobs.c:872-881 | The devices picked from any list without repetition are different and claimed by nobody. |
| `GpuExclusive.ScanPick` | jobs.c:863-922 | The chosen job carries the ids its own device test gave it. |
| `JobOperations.NewJobOk` | jobs.c:640-795 | A submission adds one job at the end under the next id and keeps the invariant of the lists and of the slot counter. |
| `Requests.DependsOnLast` | jobs.c:684-725 | -d, in every state: the new job depends on the queued job whose id no queued id exceeds, and that job alone notifies it, unless the job that ended last is newer. Then nobody notifies it, and its error is that of the newest stored job, if that one is newer than the last that ended, else the last errorlevel. |
| `Requests.DependsOnJustBefore` | jobs.c:685 | If the job submitted just before is queued, -d depends on it and it notifies the new job. |
| `Requests.LastDepIs` | jobs.c:684-725 | The same of the dependency the failure theorems keep on record, among whatever other dependencies. |
| `Requests.NewJobAsAsked` | jobs.c:640-675 | The new job is the last of the queue, with the keep flag, the slots and the devices its request asked for, held exactly when the queue is full. |
| `Asked.RunAsked` | jobs.c:640-675 | At every point of every run every job of the queue still has the keep flag, the slots and the devices that the request asked for under whose id it runs, and one that waits for a choice of devices is allocating exactly when it asked for some. |
| `Asked.StepAsked` | server.c:222-303 | One event keeps that. |
| `Requests.RemovesLast` | jobs.c:1288-1366 | A removal without an id takes the last job of the queue, unless it is the head or runs, and with an empty queue the job stored last; all other jobs stay, in order, and the id reported is that of the job that is gone. Otherwise it is refused. |
| `Requests.RemovesId` | jobs.c:1288-1366 | A removal with an id takes that job, from the queue, unless it is the head or runs, or from the stored ones, and is refused for any other id. |
| `Requests.StoredRemovalFails` | jobs.c:1343-1366 | The removal of a stored job counts as a failure for exactly the queued jobs that depend on it, however well it had ended. |
| `Requests.UrgentMoves` | jobs.c:1604-1637 | URGENT puts the job named, or the last one, behind the head, and all others keep their order. |
| `Requests.SwapExchanges` | jobs.c:1639-1673 | SWAP exchanges the places of two jobs behind the head and moves no other. |
| `Requests.QueryAnswered` | server.c:363-543 | A question is answered once, on its own connection, and changes no job; the questions that end the connection end that one and no other. |
| `Requests.ClearForgets` | jobs.c:1071-1086 | After CLEAR_FINISHED a wait for a job that had ended is answered by a line of text, its removal is refused, and a job that depends on it counts it as failed. |
| `Requests.TestTakesFirst` | jobs.c:864-886 | The device test takes the unclaimed devices of the longest front part of the list it needs, and fails when the list has fewer of them than the job asks for. |
| `Requests.UnclaimedCount` | jobs.c:864-886 | The devices it chooses from are those of the list that nobody claimed, each as often as it is listed. |
| `JobOperations.AddDependenciesDefined` | jobs.c:686-722 | The dependency loop never finds a stored job gone. |
| `JobOperations.NextRunJobOk` | jobs.c:829-926 | next_run_job counts the slots of its job before it runs, never beyond the limit, and changes nothing else of the invariant. |
| `JobOperations.JobFinishedOk` | jobs.c:1003-1069 | job_finished keeps the invariant: the queue without that job, in unchanged order, the finished list with it at the end. |
| `JobOperations.CheckNotifyOk` | jobs.c:1460-1487 | check_notify_list keeps it. |
| `JobOperations.SwapJobsOk` | jobs.c:1639-1664 | s_swap_jobs keeps it, with the same jobs in the queue. |
| `JobOperations.MoveUrgentOk` | jobs.c:1604-1637 | s_move_urgent keeps it, with the same jobs in the queue. |
| `JobOperations.MoveSecondElements` | jobs.c:1631-1635 | A job moved to position 1 leaves the order of all others. |
| `JobOperations.RemoveJobOk` | jobs.c:1288-1366 | s_remove_job keeps it and takes out exactly the job it reports. |
| `JobOperations.ChangeStateOk` | jobs.c:313-330 | Marking a job running or waking it keeps the lists, and moves the slot sum by that job alone. |
| `JobInvariant.ScanOnlyDevices` | jobs.c:863-922 | The scan changes only device ids of waiting jobs. |
| `JobInvariant.ScanStops` | jobs.c:863-922 | The job the scan stops at waits and fits the free slots. |
| `JobInvariant.AddDependenciesSame` | jobs.c:676-749 | The dependency loop changes only notification lists of others, and records only older ids. |
| `JobInvariant.NotifyAllSame` | jobs.c:1272-1284 | notify_errorlevel changes only recorded errors. |
| `JobInvariant.NewFinishedOk` | jobs.c:939-969 | new_finished_job stores the job last and forgets at most the oldest one. |
| `JobList.FindNode` | jobs.c:118-130 | Walking the links finds the node of the first job with the id, or none, as the specified lookup does. |
| `JobList.FindPrevious` | jobs.c:104-116 | find_previous_job finds the node before, or none for the head. |
| `JobList.AppendNode` | jobs.c:590-606 | newjobptr appends a node to the chain. |
| `JobList.RemoveNode` | jobs.c:798-826 | s_removejob: the jobs left in the chain are the queue the specification gives, and it fails where that does. |
| `JobList.UnlinkNode` | jobs.c:1045-1068 | Relinking around a node whose own link has already changed removes it from the chain. |
| `JobList.MoveUrgentNode` | jobs.c:1631-1635 | The three assignments of s_move_urgent make a node that is not the head the second one and keep all others in order. |
| `JobList.SwapNodes` | jobs.c:1647-1661 | The assignments of s_swap_jobs transpose two nodes that are not the head, neighbours in either order included. |
| `JobList.UrgeNode` | jobs.c:1604-1637 | s_move_urgent on links, from the lookup on: the jobs in the chain, the answer sent and the null pointer case are those of the specification. |
| `JobList.SwapIds` | jobs.c:1639-1664 | s_swap_jobs on links, from the lookups on: the jobs in the chain and the answer sent are those of the specification. |
| `JobList.FinishLinks` | jobs.c:1039-1068 | The link changes at the end of job_finished. |
| `JobList.NewFinishedNode` | jobs.c:939-969 | new_finished_job on links: the jobs in the chain are the specified finished list, and it fails exactly where the specification ends the process. |
| `JobList.FinishNode` | jobs.c:1039-1068 | The end of job_finished: although the link of the node is cut while it is still in the run queue, both chains hold the jobs the specification gives, in order, no node is in both, and it fails exactly where the specification does. |
| `JobList.FinishedBounded` | jobs.c:939-969 | With a limit of at least two the finished list stays within it. |
| `JobList.DestroyNode` | jobs.c:1440-1457 | destroy_finished_job unlinks the node, and fails exactly when it is not in the chain. |
| `JobList.AppendWaiter` | jobs.c:1368-1388 | add_to_notify_list appends. |
| `JobList.RemoveWaiter` | jobs.c:1415-1438 | s_remove_notification on links: the waiters left are the specified ones. |
| `JobTable.FindJob` | jobs.c:118-158 | The lookup loops find the first job with the id. |
| `JobTable.FindLastId` | jobs.c:609-637 | The loops over the lists find the greatest id. |
| `JobTable.InNotifyList` | jobs.c:990-1001 | The loop answers whether some waiter names the id. |
| `JobTable.ScanTurn` | jobs.c:863-922 | A turn of the scan that finds nothing is a step of the specified scan, whatever the shuffle does to the list later. |
| `JobTable.ScanHit` | jobs.c:863-922 | The turn that finds its job ends the specified scan there. |
| `JobTable.Table.AddDependencyOf` | jobs.c:676-749 | One turn of the dependency loop, with the cases of -1, unknown, queued and finished dependencies. |
| `JobTable.Table.NewJob` | jobs.c:640-795 | The state after s_newjob is that of the specification, or both end the process. |
| `JobTable.Table.NotifyErrorlevel` | jobs.c:1272-1284 | The loop tells every named job, wherever it is stored. |
| `JobTable.Table.NewFinishedJob` | jobs.c:939-969 | The finished list after the call, and when the call is fatal. |
| `JobTable.Table.JobFinished` | jobs.c:1003-1069 | The state after job_finished, and when the process ends. |
| `JobTable.Table.RemoveJobQuietly` | jobs.c:798-826 | s_removejob takes the job out without accounting. |
| `JobTable.Table.RemoveNotification` | jobs.c:1415-1438 | The first waiter on the socket goes. |
| `JobTable.Table.AnswerWaiter` | jobs.c:1460-1487 | One answered waiter, and the stored job dropped with the last one. |
| `JobTable.Table.CheckNotifyList` | jobs.c:1460-1487 | The whole restarting loop. |
| `JobTable.Table.WaitJob` | jobs.c:1489-1534 | s_wait_job answers at once or registers the wait. |
| `JobTable.Table.WaitRunningJob` | jobs.c:1536-1585 | s_wait_running_job, with its choice of the head of the queue. |
| `JobTable.Table.RemoveJob` | jobs.c:1288-1366 | s_remove_job with its refusals and its check of the waiters on job 0. |
| `JobTable.Table.IsBlocked` | jobs.c:885-907 | The dependency loop of the scan finds a dependency that is queued, allocating or running, or there is none. |
| `JobTable.Table.DeviceTest` | jobs.c:866-884 | The job leaves with the first unclaimed devices of a permutation of the free list, or fails. |
| `JobTable.Table.TakeDevices` | jobs.c:872-881 | The loop collects the first unclaimed devices. |
| `JobTable.Table.ScanQueue` | jobs.c:863-922 | The whole loop computes the specified scan for the orders the shuffles left. |
| `JobTable.Table.NextRunJob` | jobs.c:829-926 | next_run_job, the slot counter and the claims included. |
| `JobTable.Table.MarkJobRunning` | jobs.c:313-319 | The job with the id runs afterwards, nothing else changes. |
| `JobTable.Table.WakeHoldClient` | jobs.c:322-330 | The first held job becomes queued or allocating. |
| `JobTable.Table.ProcessRunJobOk` | jobs.c:1088-1100 | Accepted exactly for a running job. |
| `GpuTable.Devices.Broadcast` | gpu.c:123-131 | Marking or unmarking a list of ids changes exactly these entries, and fails exactly for an id out of range. |
| `GpuTable.Devices.IsInUse` | gpu.c:133-135 | The table answers what was claimed. |
| `GpuTable.DrawInRange` | jobs.c:49-60 | The index shuffle draws stays below its range, whatever rand() returns. |
| `GpuTable.Shuffle` | jobs.c:49-60 | shuffle permutes the array, whatever rand() returns. |
| `ServerLoop.Loop.constructor` | server.c:158-212 | A new server is an initial state of the runs. |
| `ServerLoop.Loop.GetConnOfJobid` | server.c:214-220 | The first connection that holds the job, or -1. |
| `ServerLoop.Loop.ShiftDown` | server.c:325-328 | The copying loop removes one entry and keeps the order of the others. |
| `ServerLoop.Loop.RemoveConnection` | server.c:318-329 | remove_connection, with the job it takes out of the queue. |
| `ServerLoop.Loop.EndJob` | server.c:442-450 | The ENDJOB case. |
| `ServerLoop.Loop.CleanAfterClientDisappeared` | server.c:331-361 | The cleanup for a job client and for a waiting client. |
| `ServerLoop.Loop.NewJob` | server.c:387-396 | The NEWJOB case: accepted, held or refused. |
| `ServerLoop.Loop.DropConnections` | server.c:463-474 | The loop of the REMOVEJOB case over the shifting array. |
| `ServerLoop.Loop.ClientRead` | server.c:363-543 | Every case of client_read, and the closing after an unknown message. |
| `ServerLoop.Loop.StartJob` | server.c:287-291 | The chosen job is marked and told to run. |
| `ServerLoop.Loop.WakeHeld` | server.c:293-298 | The wake loop ends in the specified state. |
| `ServerLoop.Loop.LaunchJob` | server.c:284-299 | The whole launch. |
| `ServerLoop.Loop.ReadReady` | server.c:268-281 | The loop over the connections, whose indices move under it. |
| `ServerLoop.Loop.Round` | server.c:229-300 | A round computes the specified one, and at its end slots are conserved and queue and connections match. |
| `Client.WaitServerCommands` | client.c:128-176 | The loop passes over other messages and answers the first order to run by RUNJOB_OK and ENDJOB. The job ran and the errorlevel reported and returned is that of its command, unless it is a -W job with dependencies that was told a nonzero errorlevel: then -1 and a skip are reported. |
| `Client.ReportIsHonest` | client.c:145-172 | A client that reports so is one the failure theorems speak of, and the history then says of a job that ran what its command gave, and of one that did not that it was skipped. |
| `JsonDocument.DocumentReads` | cjson/cJSON.c:1095-1172 | Every JSON text (the grammar of sections 2 to 7 of RFC 8259, in JsonGrammar) with white space around it and with or without a byte order mark is parsed as the value it stands for (JsonMeaning), if and only if it has one and no more than 1000 arrays and objects lie inside one another; a text has none exactly if half a surrogate pair or a number of more than 63 characters is in it. A document that is nothing but such a number is refused if it must end there and read in part otherwise. |
| `JsonReading.SyntaxReads` | cjson/cJSON.c:1312-1364 | The same for one text anywhere in an input, at any depth. |
| `JsonReading.ItemsRead` | cjson/cJSON.c:1474-1513 | The loop of parse_array, through any white space. |
| `JsonReading.MembersRead` | cjson/cJSON.c:1632-1689 | The loop of parse_object, through any white space. |
| `JsonReading.KeyReads` | cjson/cJSON.c:1657-1677 | A key, its colon and the white space around them. |
| `JsonStringReading.StringReads` | cjson/cJSON.c:773-890 | Every string of the grammar, whichever way its characters are escaped, is read as these characters in UTF-8 up to the first NUL, and refused exactly if it has half a surrogate pair. |
| `JsonNumberReading.NumberReads` | cjson/cJSON.c:305-379 | Every number of the grammar of at most 63 characters is read as the real number its digits denote. |
| `JsonNumberReading.LongNumberReads` | cjson/cJSON.c:318-351 | Of a longer one a part is read, and the parser stops inside it. |
| `JsonNumberReading.FiguresRead` | cjson/cJSON.c:355-361 | strtod on a numeral, with point, fraction and exponent. |
| `JsonPrinted.TextIsJson` | cjson/cJSON.c:1187-1249 | What is printed for any tree, formatted or not, is a JSON text. |
| `JsonPrinted.TextSpelled` | cjson/cJSON.c:1367-1438 | Which one: control characters, quotes and backslashes escaped, a line, tabs and a tab behind the colon for every member of formatted text, and a space between the items of an array. |
| `JsonPrinted.SyntaxMeans` | cjson/cJSON.c:1367-1438 | And it stands for the tree that was printed. |
| `JsonAcceptance.ValueTaken` | cjson/cJSON.c:1312-1364 | The converse: the parser takes a value exactly where a text of it stands, so nothing that lacks a comma, a colon or a bracket, or has one too many, is ever taken. |
| `JsonAcceptance.StringTaken` | cjson/cJSON.c:773-890 | A string that is taken consists of characters of the grammar, control characters besides, up to its closing quote, or up to the first \u without four hexadecimal digits, where its value is cut off. |
| `JsonAcceptance.NumberTaken` | cjson/cJSON.c:305-379 | A number that is taken is spelled in at most 63 characters with digits before or behind the point, and read as what it denotes. |
| `JsonResults.DocumentRoundTrip` | cjson/cJSON.c:1095-1146 | For every tree of nulls, booleans, integers of the range of int, NUL-free strings and keys, arrays and objects: parsing the printed text, formatted or not, gives back the same tree if and only if at most 1000 arrays and objects lie inside one another, and fails otherwise. |
| `JsonResults.ValueRoundTrip` | cjson/cJSON.c:1312-1364 | The same for one value anywhere in an input, at any depth, before any byte that is no number character. |
| `JsonResults.StringRoundTrip` | cjson/cJSON.c:773-890 | A printed string is read back as it was. |
| `JsonResults.NumberRoundTrip` | cjson/cJSON.c:305-379 | A printed integer is read back as it was. |
| `JsonResults.Reprinted` | cjson/cJSON.c:1095-1172 | A tree of integers of the range of int that was parsed from any input comes out again when it is printed, formatted or not, and parsed. |
| `JsonResults.ParsedValue` | cjson/cJSON.c:1312-1364 | Whatever the input is, the strings and keys of a parsed tree hold no NUL, and it is nested no deeper than the limit allows where it stands. |
| `JsonNumbers.IntTextLength` | cjson/cJSON.c:545-612 | The text of an integer fits the buffer of print_number and the 63 characters of parse_number. |
| `JsonNumbers.IntOfInt` | cjson/cJSON.c:361-373 | Saturation leaves integers of the range of int alone. |
| `JsonNumbers.IntOfTruncates` | cjson/cJSON.c:361-373 | The integer kept with a number is the number cut off towards zero, and the limit of int beyond that. |
| `JsonStringProofs.AllocationSuffices` | cjson/cJSON.c:786-877 | The room computed by the first pass of parse_string holds all the second pass writes and the final NUL, for every input. |
| `JsonStringProofs.UnescapeFits` | cjson/cJSON.c:821-873 | An escape writes no more bytes than it consumes less the escapes the first pass counted there, even when a malformed literal has put the passes out of step. |
| `JsonStringProofs.DecodeFits` | cjson/cJSON.c:821-873 | The same for the rest of the second pass from any position. |
| `JsonStringProofs.FindEndCounts` | cjson/cJSON.c:790-804 | What the first pass counts is the number of escapes before the closing quote. |
| `JsonStringProofs.LiteralReadsCodePoint` | cjson/cJSON.c:652-770 | The \u literal of every code point, one unit or a surrogate pair, is read as that code point in UTF-8. |
| `JsonStringProofs.Utf8Read` | cjson/cJSON.c:715-762 | The bytes written are the well-formed UTF-8 of the code point: reading them back gives it. |
| `JsonParse.SkipStops` | cjson/cJSON.c:1038-1061 | Skipping passes over white space alone; it steps back only at the end of the input, onto white space and never behind where it began, so never onto a comma. |
| `JsonParse.ParseValue` | cjson/cJSON.c:1312-1364 | A successful parse moves strictly forward and stays within the input. |
| `JsonParse.ParseItems` | cjson/cJSON.c:1474-1513 | The loop of parse_array moves strictly forward. |
| `JsonParse.ParseMembers` | cjson/cJSON.c:1632-1689 | The loop of parse_object moves strictly forward. |
| `JsonParser.ParseHex4` | cjson/cJSON.c:615-648 | The shifting loop computes the value of four digits, or zero. |
| `JsonParser.WriteSixes` | cjson/cJSON.c:747-762 | The loop that writes from the last byte to the first, shifting the code point, writes the intended bytes. |
| `JsonParser.Utf16LiteralToUtf8` | cjson/cJSON.c:652-770 | The function accepts, refuses and writes as specified. |
| `JsonParser.FirstPass` | cjson/cJSON.c:786-811 | The first pass finds the closing quote and counts the escapes. |
| `JsonParser.SecondPass` | cjson/cJSON.c:819-877 | The second pass decodes as specified and never writes outside the allocated array. |
| `JsonParser.ReadString` | cjson/cJSON.c:773-899 | parse_string as a whole. |
| `JsonParser.CopyNumber` | cjson/cJSON.c:318-351 | The loop copies exactly the leading number characters, at most 63, and stays within its buffer. |
| `JsonParser.ParseBuffer.SkipWhitespace` | cjson/cJSON.c:1038-1061 | The cursor moves as specified and stays on a byte of the input. |
| `JsonParser.ParseBuffer.ReadNumber` | cjson/cJSON.c:305-379 | parse_number against its specification. |
| `JsonParser.ParseBuffer.ReadScalar` | cjson/cJSON.c:1319-1351 | The scalar cases of parse_value. |
| `JsonParser.ParseBuffer.ReadValue` | cjson/cJSON.c:1312-1364 | parse_value against its specification: on success the cursor has moved on within the input and the depth is restored. |
| `JsonParser.ParseBuffer.ReadArray` | cjson/cJSON.c:1441-1536 | parse_array, with the nesting limit and the step back before the first element. |
| `JsonParser.ParseBuffer.ReadItems` | cjson/cJSON.c:1474-1513 | Its loop ends and collects the items in order. |
| `JsonParser.ParseBuffer.ReadObject` | cjson/cJSON.c:1601-1711 | parse_object. |
| `JsonParser.ParseBuffer.ReadMembers` | cjson/cJSON.c:1632-1689 | Its loop ends and collects the members in order. |
| `JsonParser.ParseBuffer.ReadMember` | cjson/cJSON.c:1657-1682 | One turn: name, colon, value. |
| `JsonParser.ParseText` | cjson/cJSON.c:1095-1172 | The entry point with the byte order mark and the check of what follows the value. |
| `JsonPrinter.PrintBuffer.Ensure` | cjson/cJSON.c:439-522 | Succeeds exactly when the bytes asked for and one more fit the greatest size the buffer can reach, and keeps what was printed. |
| `JsonPrinter.PrintBuffer.UpdateOffset` | cjson/cJSON.c:525-535 | The search for the next NUL moves the cursor exactly behind the text printed last. |
| `JsonPrinter.PrintBuffer.EmitText` | cjson/cJSON.c:1378-1403 | A text and its NUL are stored within the room asked for. |
| `JsonPrinter.PrintBuffer.PrintString` | cjson/cJSON.c:902-1021 | The escaped string is stored within the computed room; it fails exactly when that room is not there. |
| `JsonPrinter.PrintBuffer.PrintNumber` | cjson/cJSON.c:545-612 | The decimal text of an integer is appended. |
| `JsonPrinter.PrintBuffer.PrintValue` | cjson/cJSON.c:1367-1438 | Printing appends exactly the text of the value, keeps the depth, and fails exactly when the text, its NUL and one byte more do not fit. |
| `JsonPrinter.PrintBuffer.PrintArray` | cjson/cJSON.c:1539-1598 | The same for an array. |
| `JsonPrinter.PrintBuffer.PrintItems` | cjson/cJSON.c:1562-1586 | Its loop appends the items with their commas. |
| `JsonPrinter.PrintBuffer.PrintObject` | cjson/cJSON.c:1714-1825 | The same for an object. |
| `JsonPrinter.PrintBuffer.PrintMembers` | cjson/cJSON.c:1741-1805 | Its loop appends the members with their indentation, colons, commas and line ends. |
| `JsonPrinter.CountEscapes` | cjson/cJSON.c:929-953 | The length computed before printing is that of the escaped string. |
| `JsonPrinter.PutQuoted` | cjson/cJSON.c:961-1018 | Both ways of storing a string store its quoted form. |
| `JsonPrinter.Print` | cjson/cJSON.c:1187-1249 | From 256 bytes on, printing gives the text and its NUL exactly when two more bytes than the text fit INT_MAX. |
| `JsonPrinter.PrintPreallocated` | cjson/cJSON.c:1292-1309 | Succeeds exactly when the buffer has one byte more than the text and its NUL. |
| `SiblingList.Parent.GetItem` | cjson/cJSON.c:1851-1868 | The node at an index, or null. |
| `SiblingList.Parent.Add` | cjson/cJSON.c:1956-1987 | Appends, through the backward link of the first node. |
| `SiblingList.Parent.Detach` | cjson/cJSON.c:2187-2221 | Removes the node at any position, first, middle, last or only, and clears its links. |
| `SiblingList.Parent.Insert` | cjson/cJSON.c:2263-2290 | Inserts before the index, or appends behind the end, and refuses a negative index. |
| `SiblingList.Parent.InsertBefore` | cjson/cJSON.c:2278-2289 | The link changes insert the node before the given one, the first included. |
| `SiblingList.Parent.Replace` | cjson/cJSON.c:2292-2339 | Replaces the node at any position, and nothing when it is its own replacement. |
| `JsonCompare.SameCanon` | cjson/cJSON.c:2986-3109 | On all trees whose numbers are integers below 2^52 in absolute value, in either case mode: two trees at different nodes compare equal if and only if they are equal up to the order of members and in every object of both the members of the same key have values that are equal in that sense. |
| `JsonCompare.SameEquivalence` | cjson/cJSON.c:2986-3109 | Hence it is symmetric and transitive on them, and a tree compares equal to a copy of itself at other nodes exactly when the members of the same key agree throughout. |
| `JsonCompare.FoldExactly` | cjson/cJSON.c:133-160 | Without regard to case two keys are the same exactly when they differ at most in the case of letters. |
| `JsonCompare.AllFoundMatch` | cjson/cJSON.c:3068-3101 | One of the two loops over members decides whether each member and the one found for it agree. |
| `JsonCompare.MatchBoth` | cjson/cJSON.c:3068-3101 | Both loops together decide that the objects are the same maps and that members of the same key agree. |
| `JsonCompare.TwiceTheSameKey` | cjson/cJSON.c:3072-3085 | An object with one key twice compares equal to its copy exactly when the two values compare equal to each other. |
| `JsonCompare.OneAndTwo` | cjson/cJSON.c:3072-3085 | With the values 1 and 2 it does not. |
| `JsonCompare.TransitiveBelow` | cjson/cJSON.c:538-542 | On integers up to 2^53, which a double holds exactly: from an integer two steps of equal neighbours lead to an unequal one if and only if its absolute value is at least 2^52 - 1. |
| `JsonCompare.CloseInts` | cjson/cJSON.c:538-542 | On integers below 2^52 in absolute value the comparison up to an epsilon is equality. |
| `JsonCompare.Compare` | cjson/cJSON.c:2986-3109 | One and the same node is equal to itself at once; for different nodes the recursive loops decide the specified relation. |
| `JsonCompare.FindAll` | cjson/cJSON.c:3072-3085 | One loop over the members of an object. |
| `JsonCompare.LookupFirst` | cjson/cJSON.c:1880-1910 | Of several members with a key the first is found, and none exactly if there is none. |
| `JsonCompare.GetObjectItem` | cjson/cJSON.c:1880-1910 | The loop finds the first member with the key, in the chosen case mode. |
| `JsonCompare.Duplicate` | cjson/cJSON.c:2706-2787 | A recursive copy is the same tree; with integers below 2^52 it compares equal to its original exactly when the members of the same key agree. |
| `Tail.SeekAtLastLines` | tail.c:45-101 | For every content and line count the loop ends, and what follows the cursor holds the asked number of newlines or all there are. The cursor stands at the start of a line if and only if no chunk boundary lies inside a line with exactly that number of newlines behind it and fewer behind the next boundary; otherwise it stands on that boundary. |
| `Tail.LongLineCut` | tail.c:45-101 | A file that fails: its last line of a chunk and one byte is shown without its first byte. |
| `Tail.CutAtStart` | tail.c:93-100 | A loop that stops at the start of a chunk cuts a line exactly when none starts there, and no other boundary does. |
| `Tail.ReadChunk` | tail.c:56-95 | One turn counts a chunk and puts the cursor back at its start. |
| `Tail.CountBack` | tail.c:82-92 | The backward loop stops at the newline that is one too many. |

## Left out

* Sockets, `select`, message framing, fork, exec, pipes and signals: a message is one atomic step, and an
  event may happen at any time, which covers every interleaving the loop produces.
* NVML: a device query fails or brings a list; which devices have memory to spare is not modelled.
* Option parsing, listings, labels, environment and log directory messages, mail, times and `Procinfo`
  texts: they do not touch the state the theorems speak of. Messages that are answered and change
  nothing are one kind, `Query`; those that are answered and closed another.
* Setting `TS_MAXFINISHED` by a message while jobs are stored; the limit of finished jobs is fixed for a run.
* KILL_SERVER: a run may go on after it, so the theorems cover more runs than there are.
* Overflow of `int` in job ids, slot counts and sums of errorlevels.
* GPU jobs whose client sends fewer ids than devices: a request carries exactly its ids.
* The walk of `destroy_finished_job` follows `next`; the source advances its pointer by one structure.
* `JobTable.Table` keeps its lists as sequences that the methods reassign; the link changes are proved in
  `JobList` against the same specification, with jobs whose other fields do not change meanwhile, not
  inside the class.
* Jobs with GPUs fixed by the user (`-g`): their devices are used unchecked by design, so the exclusive
  use is stated for automatic jobs.
* The freeing of memory: a node that is freed is one that no list holds any more.
* Floating point in `cJSON.c`: `strtod` is exact on decimal numerals, printing covers numbers that %d
  prints, and `compare_double` is exact arithmetic on reals, which agrees with doubles on the integers the
  theorems about comparison speak of.
* That the bytes from 128 on form UTF-8: the grammar is one of bytes, and printing and parsing pass them through.
* `cJSON_Raw`, reference items, allocation failures and hooks, `cJSON_Minify`, and inputs without a final NUL.
* The parser collects children in a list value; the links between siblings are proved in `SiblingList`.
* Positions reported for failed parses.
* `JsonCompare.Duplicate` copies values, so the sharing of constant key strings does not appear.
* Short reads and interrupted reads in `tail.c`, and files of more than two gigabytes.
