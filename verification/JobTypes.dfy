/** The records kept by jobs.c: one `Job` per node of the run queue or of the
    finished list, one `Waiter` per node of the notification list, and `Jobs`
    for the static variables of the file taken together. */
module JobTypes {

  datatype Option<+T> = None | Some(value: T) {
    predicate IsFailure() { None? }
    function PropagateFailure<U>(): Option<U> requires None? { None }
    function Extract(): T requires Some? { value }
  }

  datatype JobState = Queued | Allocating | Running | Finished | Skipped | HoldingClient

  /** What a client reports when its job ends (the fields that decide anything). */
  datatype Result = Result(errorlevel: int, skipped: bool)

  /** A NEWJOB message together with the integers that follow it. */
  datatype Request = Request(
    gpus: nat,
    waitFreeGpus: bool,
    gpuIds: seq<int>,
    numSlots: nat,
    keep: bool,
    dependOn: seq<int>,
    waitEnqueuing: bool)

  datatype Job = Job(
    id: int,
    state: JobState,
    numSlots: nat,
    numGpus: nat,
    waitFreeGpus: bool,
    gpuIds: seq<int>,
    keep: bool,
    dependOn: seq<int>,
    notifyTo: seq<int>,
    dependencyErrorlevel: int,
    errorlevel: int)

  datatype Waiter = Waiter(socket: int, jobid: int)

  /** Messages the server sends, in the order it sends them. */
  datatype Sent =
    | NewJobOk(socket: int, id: int)
    | NewJobNok(socket: int, id: int)
    | RunJob(socket: int, id: int, lastErrorlevel: int, gpuIds: seq<int>)
    | WaitJobOk(socket: int, errorlevel: int)
    | RemoveJobOk(socket: int)
    | UrgentOk(socket: int)
    | SwapJobsOk(socket: int)
    | Line(socket: int)
    | Answer(socket: int)

  /** The server is compiled with or without NVML; a GPU build knows how many devices exist. */
  datatype Build = Cpu | Gpu(total: nat)

  datatype Jobs = Jobs(
    queue: seq<Job>,
    finished: seq<Job>,
    waiters: seq<Waiter>,
    nextId: int,
    busy: int,
    maxSlots: int,
    lastErrorlevel: int,
    lastFinishedId: int,
    usedGpus: set<int>,
    sent: seq<Sent>,
    build: Build,
    maxJobs: int,
    maxFinished: nat)

  /** What one query of the devices brings: nothing on failure, otherwise, for each
      position of the run queue, the free list in the order the shuffle left it
      when the scan looks at that position. */
  datatype GpuQuery = QueryFailed | FreeLists(orders: seq<seq<int>>)
}
