/** jobs.c as functions on `Jobs`. `None` stands for the end of the process: an
    `error(...)` call, or a step whose behaviour C leaves undefined (a null or
    freed node followed, `used_gpus` indexed outside its length). */
module JobSpec {
  import opened JobTypes

  function Abs(x: int): nat { if x < 0 then -x else x }

  // ---- looking jobs up ----

  /** findjob / find_finished_job: the first position holding `id`, or -1. */
  function Find(q: seq<Job>, id: int): (k: int)
    ensures -1 <= k < |q|
    ensures k >= 0 ==> q[k].id == id
    ensures forall i :: 0 <= i < |q| && (k < 0 || i < k) ==> q[i].id != id
  {
    if q == [] then -1
    else if q[0].id == id then 0
    else var k := Find(q[1..], id); if k < 0 then -1 else k + 1
  }

  function FindHolding(q: seq<Job>): (k: int)
    ensures -1 <= k < |q|
    ensures k >= 0 ==> q[k].state.HoldingClient?
    ensures forall i :: 0 <= i < |q| && (k < 0 || i < k) ==> !q[i].state.HoldingClient?
  {
    if q == [] then -1
    else if q[0].state.HoldingClient? then 0
    else var k := FindHolding(q[1..]); if k < 0 then -1 else k + 1
  }

  /** find_last_jobid_in_queue / find_last_stored_jobid_finished. */
  function MaxId(q: seq<Job>): (m: int)
    ensures m >= -1
    ensures forall i :: 0 <= i < |q| ==> q[i].id <= m
    ensures m == -1 || exists i :: 0 <= i < |q| && q[i].id == m
  {
    if q == [] then -1
    else
      var m := MaxId(q[..|q| - 1]);
      if q[|q| - 1].id > m then q[|q| - 1].id else m
  }

  predicate IsUnfinished(st: JobState) { st.Queued? || st.Running? || st.Allocating? }

  predicate IsRunnable(j: Job) { j.state.Queued? || j.state.Allocating? }

  predicate IsDone(st: JobState) { st.Finished? || st.Skipped? }

  /** get_job(d) finds a job, and that job is queued, allocating or running. */
  predicate DependencyUnfinished(s: Jobs, d: int) {
    var k := Find(s.queue, d);
    if k >= 0 then IsUnfinished(s.queue[k].state)
    else var f := Find(s.finished, d); f >= 0 && IsUnfinished(s.finished[f].state)
  }

  predicate Blocked(s: Jobs, j: Job) {
    exists i :: 0 <= i < |j.dependOn| && DependencyUnfinished(s, j.dependOn[i])
  }

  // ---- changing single jobs ----

  function RemoveAt<T>(q: seq<T>, k: nat): (r: seq<T>)
    requires k < |q|
  {
    q[..k] + q[k + 1..]
  }

  lemma RemoveAtElements<T>(q: seq<T>, k: nat)
    requires k < |q|
    ensures |RemoveAt(q, k)| == |q| - 1
    ensures forall i :: 0 <= i < |q| - 1 ==> RemoveAt(q, k)[i] == q[if i < k then i else i + 1]
  {
  }

  function AddNotify(j: Job, id: int): Job { j.(notifyTo := j.notifyTo + [id]) }

  function AddError(j: Job, errorlevel: int): Job {
    j.(dependencyErrorlevel := j.dependencyErrorlevel + Abs(errorlevel))
  }

  /** One turn of the loop of notify_errorlevel. */
  function NotifyOne(s: Jobs, id: int, errorlevel: int): (r: Jobs)
    ensures r == s.(queue := r.queue, finished := r.finished)
    ensures |r.queue| == |s.queue| && |r.finished| == |s.finished|
  {
    var k := Find(s.queue, id);
    if k >= 0 then s.(queue := s.queue[k := AddError(s.queue[k], errorlevel)])
    else
      var f := Find(s.finished, id);
      if f >= 0 then s.(finished := s.finished[f := AddError(s.finished[f], errorlevel)]) else s
  }

  function NotifyAll(s: Jobs, ids: seq<int>, errorlevel: int): (r: Jobs)
    ensures r == s.(queue := r.queue, finished := r.finished)
    ensures |r.queue| == |s.queue| && |r.finished| == |s.finished|
    decreases |ids|
  {
    if ids == [] then s
    else NotifyOne(NotifyAll(s, ids[..|ids| - 1], errorlevel), ids[|ids| - 1], errorlevel)
  }

  // ---- s_newjob ----

  function Enqueued(s: Jobs, r: Request): Job {
    Job(s.nextId,
        if |s.queue| + 1 < s.maxJobs then (if r.gpus != 0 then Allocating else Queued) else HoldingClient,
        r.numSlots,
        if r.waitFreeGpus then r.gpus else |r.gpuIds|,
        r.waitFreeGpus,
        if r.waitFreeGpus then seq(r.gpus, _ => -1) else r.gpuIds,
        r.keep, [], [], 0, 0)
  }

  /** One turn of the dependency loop: the job `me` records dependency `d`. */
  function AddDependency(s: Jobs, me: Job, d: int): Option<(Jobs, Job)> {
    if d >= me.id then Some((s, me))
    else if d == -1 then
      var last := MaxId(s.queue);
      var last := if s.lastFinishedId > last then -1 else last;
      if last != -1 then
        var k := Find(s.queue, last);
        Some((if k >= 0 then s.(queue := s.queue[k := AddNotify(s.queue[k], me.id)]) else s,
              me.(dependOn := me.dependOn + [last])))
      else
        var stored := MaxId(s.finished);
        if s.lastFinishedId < stored then
          var f := Find(s.finished, stored);
          if f < 0 then None
          else Some((s, AddError(me.(dependOn := me.dependOn + [stored]), s.finished[f].errorlevel)))
        else Some((s, AddError(me.(dependOn := me.dependOn + [stored]), s.lastErrorlevel)))
    else
      var me' := me.(dependOn := me.dependOn + [d]);
      var k := Find(s.queue, d);
      if k >= 0 then Some((s.(queue := s.queue[k := AddNotify(s.queue[k], me.id)]), me'))
      else
        var f := Find(s.finished, d);
        Some((s, AddError(me', if f >= 0 then s.finished[f].errorlevel else 1)))
  }

  function AddDependencies(s: Jobs, me: Job, deps: seq<int>): Option<(Jobs, Job)>
    decreases |deps|
  {
    if deps == [] then Some((s, me))
    else
      var (s', me') :- AddDependencies(s, me, deps[..|deps| - 1]);
      AddDependency(s', me', deps[|deps| - 1])
  }

  function NewJob(s: Jobs, r: Request): Option<Jobs> {
    var (s', me) :- AddDependencies(s, Enqueued(s, r), r.dependOn);
    Some(s'.(queue := s'.queue + [me], nextId := s'.nextId + 1))
  }

  // ---- GPUs (gpu.c and the device part of next_run_job) ----

  predicate InRange(ids: seq<int>, total: nat) { forall i :: 0 <= i < |ids| ==> 0 <= ids[i] < total }

  function ToSet(ids: seq<int>): set<int> { set i | 0 <= i < |ids| :: ids[i] }

  /** The entries of `list` that no job has claimed, in order. */
  function Unclaimed(list: seq<int>, used: set<int>): seq<int> {
    if list == [] then []
    else
      var rest := Unclaimed(list[..|list| - 1], used);
      if list[|list| - 1] in used then rest else rest + [list[|list| - 1]]
  }

  /** The job as it leaves the device test at position `i` of the scan, or None when it does not pass. */
  function Tentative(s: Jobs, j: Job, i: nat, query: GpuQuery): Option<Job> {
    if s.build.Cpu? then Some(j)
    else if query.QueryFailed? then None
    else if j.numGpus == 0 || !j.waitFreeGpus then Some(j)
    else
      var free := Unclaimed(if i < |query.orders| then query.orders[i] else [], s.usedGpus);
      if |free| < j.numGpus then None else Some(j.(gpuIds := free[..j.numGpus]))
  }

  // ---- next_run_job ----

  /** The scan from position `i`: the queue with the device ids it wrote on its way,
      and the position of the job to launch, or -1. */
  function Scan(s: Jobs, i: nat, query: GpuQuery): (r: (Jobs, int))
    requires i <= |s.queue|
    ensures r.0 == s.(queue := r.0.queue) && |r.0.queue| == |s.queue|
    ensures -1 <= r.1 < |s.queue|
    decreases |s.queue| - i
  {
    if i == |s.queue| then (s, -1)
    else if !IsRunnable(s.queue[i]) then Scan(s, i + 1, query)
    else
      match Tentative(s, s.queue[i], i, query)
      case None => Scan(s, i + 1, query)
      case Some(j) =>
        var s' := s.(queue := s.queue[i := j]);
        if !Blocked(s', j) && j.numSlots <= s.maxSlots - s.busy then (s', i)
        else Scan(s', i + 1, query)
  }

  function ClaimGpus(s: Jobs, j: Job): Option<Jobs> {
    if s.build.Cpu? || j.numGpus == 0 then Some(s)
    else if !InRange(j.gpuIds, s.build.total) then None
    else Some(s.(usedGpus := s.usedGpus + ToSet(j.gpuIds)))
  }

  function FreeGpus(s: Jobs, j: Job): Option<Jobs> {
    if s.build.Cpu? then Some(s)
    else if !InRange(j.gpuIds, s.build.total) then None
    else Some(s.(usedGpus := s.usedGpus - ToSet(j.gpuIds)))
  }

  /** next_run_job: the state it leaves and the position chosen, or -1. The job
      is not yet marked running, though its slots are already counted. */
  function NextRunJob(s: Jobs, query: GpuQuery): (r: Option<(Jobs, int)>)
    ensures r.Some? ==> -1 <= r.value.1 < |r.value.0.queue|
  {
    if s.maxSlots - s.busy <= 0 || s.queue == [] then Some((s, -1))
    else
      var (s', k) := Scan(s, 0, query);
      if k < 0 then Some((s', -1))
      else
        var s'' :- ClaimGpus(s'.(busy := s'.busy + s'.queue[k].numSlots), s'.queue[k]);
        Some((s'', k))
  }

  // ---- the finished list ----

  /** new_finished_job. */
  function NewFinished(f: seq<Job>, j: Job, max: nat): Option<seq<Job>> {
    if f == [] then if 0 < max then Some([j]) else None
    else if |f| < max then Some(f + [j])
    else if |f| == 1 then None
    else Some(f[1..] + [j])
  }

  predicate Awaited(w: seq<Waiter>, id: int) { exists i :: 0 <= i < |w| && w[i].jobid == id }

  /** The job at position `k` gives back its slots and records its result. */
  function RecordEnd(s: Jobs, k: nat, result: Result): (t: Jobs)
    requires k < |s.queue|
  {
    var j := s.queue[k];
    s.(busy := if j.state.Running? then s.busy - j.numSlots else s.busy,
       queue := s.queue[k := j.(state := if result.skipped then Skipped else Finished,
                                errorlevel := result.errorlevel)],
       lastFinishedId := j.id,
       lastErrorlevel := result.errorlevel)
  }

  /** The job at position `k` moves to the finished list, if it is to be kept or is awaited, and leaves the queue. */
  function Retire(s: Jobs, k: nat): Option<Jobs>
    requires k < |s.queue|
  {
    var f :- if s.queue[k].keep || Awaited(s.waiters, s.queue[k].id)
             then NewFinished(s.finished, s.queue[k], s.maxFinished) else Some(s.finished);
    Some(s.(finished := f, queue := RemoveAt(s.queue, k)))
  }

  /** job_finished. */
  function JobFinished(s: Jobs, result: Result, id: int): Option<Jobs> {
    if s.busy <= 0 then None
    else
      var k := Find(s.queue, id);
      if k < 0 then None
      else
        var s1 :- FreeGpus(s, s.queue[k]);
        Retire(NotifyAll(RecordEnd(s1, k, result), s.queue[k].notifyTo, result.errorlevel), k)
  }

  // ---- waiting clients ----

  function FindSocket(w: seq<Waiter>, socket: int): (k: int)
    ensures -1 <= k < |w|
    ensures k >= 0 ==> w[k].socket == socket
    ensures forall i :: 0 <= i < |w| && (k < 0 || i < k) ==> w[i].socket != socket
  {
    if w == [] then -1
    else if w[0].socket == socket then 0
    else var k := FindSocket(w[1..], socket); if k < 0 then -1 else k + 1
  }

  /** s_remove_notification: drops the first waiter on that socket, if any. */
  function RemoveNotification(w: seq<Waiter>, socket: int): seq<Waiter> {
    var k := FindSocket(w, socket);
    if k < 0 then w else RemoveAt(w, k)
  }

  /** get_job: the run queue is searched before the finished list. */
  function GetJob(s: Jobs, id: int): (r: Option<Job>)
    ensures r.Some? ==> r.value.id == id
  {
    var k := Find(s.queue, id);
    if k >= 0 then Some(s.queue[k])
    else var f := Find(s.finished, id); if f >= 0 then Some(s.finished[f]) else None
  }

  /** The turn of the loop of check_notify_list for a waiter on `id`, whose job has ended. */
  function AnswerWaiter(s: Jobs, w: Waiter, j: Job): (r: Option<Jobs>)
    ensures r.Some? ==> r.value == s.(sent := r.value.sent, waiters := r.value.waiters, finished := r.value.finished)
    ensures r.Some? ==> r.value.waiters == RemoveNotification(s.waiters, w.socket)
  {
    var s1 := s.(sent := s.sent + [WaitJobOk(w.socket, j.errorlevel)],
                 waiters := RemoveNotification(s.waiters, w.socket));
    if !Awaited(s1.waiters, j.id) && !j.keep then
      // destroy_finished_job
      var f := Find(s1.finished, j.id);
      if Find(s1.queue, j.id) >= 0 || f < 0 then None
      else Some(s1.(finished := RemoveAt(s1.finished, f)))
    else Some(s1)
  }

  /** check_notify_list, from the waiter at position `i` on. */
  function CheckNotifyFrom(s: Jobs, id: int, i: nat): (r: Option<Jobs>)
    ensures r.Some? ==> r.value == s.(sent := r.value.sent, waiters := r.value.waiters, finished := r.value.finished)
    decreases |s.waiters| - i
  {
    if i >= |s.waiters| then Some(s)
    else if s.waiters[i].jobid != id then CheckNotifyFrom(s, id, i + 1)
    else
      var j :- GetJob(s, id);
      if !IsDone(j.state) then CheckNotifyFrom(s, id, i + 1)
      else
        var s' :- AnswerWaiter(s, s.waiters[i], j);
        CheckNotifyFrom(s', id, i)
  }

  function CheckNotify(s: Jobs, id: int): Option<Jobs> { CheckNotifyFrom(s, id, 0) }

  function SendLine(s: Jobs, socket: int): Jobs { s.(sent := s.sent + [Line(socket)]) }

  /** s_wait_job, for the job at hand. */
  function WaitFor(s: Jobs, socket: int, j: Job): Jobs {
    if IsDone(j.state) then s.(sent := s.sent + [WaitJobOk(socket, j.errorlevel)])
    else s.(waiters := s.waiters + [Waiter(socket, j.id)])
  }

  /** The job added last, as s_wait_job and others look it up for the id -1. */
  function LastJob(s: Jobs): Option<Job> {
    if s.queue != [] then Some(s.queue[|s.queue| - 1])
    else if s.finished != [] then Some(s.finished[|s.finished| - 1])
    else None
  }

  function WaitJob(s: Jobs, socket: int, id: int): Jobs {
    match (if id == -1 then LastJob(s) else GetJob(s, id))
    case None => SendLine(s, socket)
    case Some(j) => WaitFor(s, socket, j)
  }

  /** s_wait_running_job: for the id -1 it takes the head of the queue when slots are busy. */
  function WaitRunningJob(s: Jobs, socket: int, id: int): Option<Jobs> {
    if id == -1 && s.busy > 0 then
      if s.queue == [] then None else Some(WaitFor(s, socket, s.queue[0]))
    else if id == -1 then
      if s.finished == [] then Some(SendLine(s, socket))
      else Some(WaitFor(s, socket, s.finished[|s.finished| - 1]))
    else Some(WaitJob(s, socket, id))
  }

  // ---- s_remove_job ----

  datatype Place = InQueue(k: nat) | InFinished(k: nat) | Nowhere

  /** Where s_remove_job finds the job meant by `id` (-1: the last one). */
  function Locate(s: Jobs, id: int): (p: Place)
    ensures p.InQueue? ==> p.k < |s.queue|
    ensures p.InFinished? ==> p.k < |s.finished|
  {
    if id == -1 then
      if s.queue != [] then InQueue(|s.queue| - 1)
      else if s.finished != [] then InFinished(|s.finished| - 1)
      else Nowhere
    else
      var k := Find(s.queue, id);
      if k >= 0 then InQueue(k)
      else var f := Find(s.finished, id); if f >= 0 then InFinished(f) else Nowhere
  }

  function Dropped(j: Job): Job { j.(state := Finished, errorlevel := -1) }

  /** s_remove_job on the queued job at position `k`. As in the source, the waiters
      looked at are those on job 0, not those on the removed job. */
  function RemoveQueuedAt(s: Jobs, socket: int, k: nat): Option<Jobs>
    requires k < |s.queue|
  {
    var j := s.queue[k];
    var s1 := NotifyAll(s.(queue := s.queue[k := Dropped(j)], lastErrorlevel := -1), j.notifyTo, -1);
    var s2 :- CheckNotify(s1, 0);
    Some(s2.(queue := RemoveAt(s2.queue, k), sent := s2.sent + [RemoveJobOk(socket)]))
  }

  /** s_remove_job on the finished job at position `k`. */
  function RemoveFinishedAt(s: Jobs, socket: int, k: nat): Option<Jobs>
    requires k < |s.finished|
  {
    var j := s.finished[k];
    var s1 := NotifyAll(s.(finished := s.finished[k := Dropped(j)], lastErrorlevel := -1), j.notifyTo, -1);
    var s2 :- CheckNotify(s1, 0);
    // check_notify_list may have freed this node, or the one before it
    var f := Find(s2.finished, j.id);
    if f < 0 || (0 < f < k && s.finished[k - 1].id == 0) then None
    else Some(s2.(finished := RemoveAt(s2.finished, f), sent := s2.sent + [RemoveJobOk(socket)]))
  }

  /** s_remove_job: the new state and the id removed, or -1 when the request is refused. */
  function RemoveJob(s: Jobs, socket: int, id: int): Option<(Jobs, int)> {
    match Locate(s, id)
    case Nowhere => Some((SendLine(s, socket), -1))
    case InQueue(k) =>
      if k == 0 || s.queue[k].state.Running? then Some((SendLine(s, socket), -1))
      else var t :- RemoveQueuedAt(s, socket, k); Some((t, s.queue[k].id))
    case InFinished(k) => var t :- RemoveFinishedAt(s, socket, k); Some((t, s.finished[k].id))
  }

  /** s_removejob: unlinks a job without any accounting. */
  function Unlink(s: Jobs, id: int): Option<Jobs> {
    var k := Find(s.queue, id);
    if k < 0 then None else Some(s.(queue := RemoveAt(s.queue, k)))
  }

  // ---- order of the queue ----

  /** s_move_urgent on the job at position `k`, which must not be the head: it goes to position 1. */
  function MoveSecond<T>(q: seq<T>, k: nat): seq<T>
    requires 0 < k < |q|
  {
    [q[0], q[k]] + q[1..k] + q[k + 1..]
  }

  function MoveUrgent(s: Jobs, socket: int, id: int): Option<Jobs> {
    var k := if id == -1 then |s.queue| - 1 else Find(s.queue, id);
    if k < 0 || |s.queue| == 1 then Some(SendLine(s, socket))
    else if k == 0 then None
    else Some(s.(queue := MoveSecond(s.queue, k), sent := s.sent + [UrgentOk(socket)]))
  }

  function SwapJobs(s: Jobs, socket: int, id1: int, id2: int): Jobs {
    var a := Find(s.queue, id1);
    var b := Find(s.queue, id2);
    if a <= 0 || b <= 0 then SendLine(s, socket)
    else s.(queue := s.queue[a := s.queue[b]][b := s.queue[a]], sent := s.sent + [SwapJobsOk(socket)])
  }

  // ---- smaller steps ----

  function MarkRunning(s: Jobs, id: int): Option<Jobs> {
    var k := Find(s.queue, id);
    if k < 0 then None else Some(s.(queue := s.queue[k := s.queue[k].(state := Running)]))
  }

  function Woken(j: Job): Job { j.(state := if j.numGpus != 0 then Allocating else Queued) }

  /** wake_hold_client: the job woken, or -1. */
  function WakeHoldClient(s: Jobs): (Jobs, int) {
    var k := FindHolding(s.queue);
    if k < 0 then (s, -1) else (s.(queue := s.queue[k := Woken(s.queue[k])]), s.queue[k].id)
  }

  function RunJobOk(s: Jobs, id: int): Option<Jobs> {
    var k := Find(s.queue, id);
    if k < 0 || !s.queue[k].state.Running? then None else Some(s)
  }

  function SetMaxSlots(s: Jobs, n: int): Jobs { if n > 0 then s.(maxSlots := n) else s }
}
