/** server.c as functions: the connection table, the messages, and the launch
    that closes every round of the loop. */
module ServerSpec {
  import opened JobTypes
  import opened JobSpec

  datatype Conn = Conn(socket: int, hasJob: bool, jobid: int)

  datatype Server = Server(jobs: Jobs, conns: seq<Conn>, maxConns: nat)

  /** What one read of a connection brings. `Query` stands for the messages that are
      answered and change nothing, `ClosingQuery` for those that are answered and closed. */
  datatype Msg =
    | KillServer
    | NewJobMsg(request: Request)
    | RunJobOkMsg
    | EndJobMsg(result: Result)
    | Query
    | ClosingQuery
    | Info(id: int)
    | AskOutput(id: int)
    | ClearFinished
    | RemoveJobMsg(id: int)
    | WaitJobMsg(id: int)
    | WaitRunningJobMsg(id: int)
    | UrgentMsg(id: int)
    | SwapJobsMsg(id1: int, id2: int)
    | SetMaxSlotsMsg(slots: int)
    | Unknown
    | EndOfStream

  datatype Event =
    | Accept(socket: int)
    | Read(index: nat, msg: Msg)
    | Launch(query: GpuQuery)

  /** get_conn_of_jobid. */
  function ConnOf(conns: seq<Conn>, id: int): (c: int)
    ensures -1 <= c < |conns|
    ensures c >= 0 ==> conns[c].hasJob && conns[c].jobid == id
    ensures forall i :: 0 <= i < |conns| && (c < 0 || i < c) ==> !(conns[i].hasJob && conns[i].jobid == id)
  {
    if conns == [] then -1
    else if conns[0].hasJob && conns[0].jobid == id then 0
    else var c := ConnOf(conns[1..], id); if c < 0 then -1 else c + 1
  }

  /** remove_connection. */
  function RemoveConnection(s: Server, i: nat): Option<Server>
    requires i < |s.conns|
  {
    var jobs :- if s.conns[i].hasJob then Unlink(s.jobs, s.conns[i].jobid) else Some(s.jobs);
    Some(s.(jobs := jobs, conns := RemoveAt(s.conns, i)))
  }

  const KILLED := Result(-1, false)

  /** job_finished followed by check_notify_list: the job of connection `i` ends. */
  function EndJob(s: Server, i: nat, result: Result): Option<Server>
    requires i < |s.conns|
  {
    var j1 :- JobFinished(s.jobs, result, s.conns[i].jobid);
    var j2 :- CheckNotify(j1, s.conns[i].jobid);
    Some(s.(jobs := j2, conns := s.conns[i := s.conns[i].(hasJob := false)]))
  }

  /** clean_after_client_disappeared. */
  function Disappear(s: Server, i: nat): Option<Server>
    requires i < |s.conns|
  {
    var s1 :- if s.conns[i].hasJob then EndJob(s, i, KILLED)
              else Some(s.(jobs := s.jobs.(waiters := RemoveNotification(s.jobs.waiters, s.conns[i].socket))));
    RemoveConnection(s1, i)
  }

  function Send(s: Server, m: Sent): Server { s.(jobs := s.jobs.(sent := s.jobs.sent + [m])) }

  /** The NEWJOB case of client_read. */
  function EnqueueFor(s: Server, i: nat, r: Request): Option<Server>
    requires i < |s.conns|
  {
    var id := s.jobs.nextId;
    var jobs :- NewJob(s.jobs, r);
    var s1 := s.(jobs := jobs, conns := s.conns[i := Conn(s.conns[i].socket, true, id)]);
    var k := Find(jobs.queue, id);
    if !(k >= 0 && jobs.queue[k].state.HoldingClient?) then Some(Send(s1, NewJobOk(s.conns[i].socket, id)))
    else if r.waitEnqueuing then Some(s1)
    else Disappear(Send(s1, NewJobNok(s.conns[i].socket, id)), i)
  }

  /** The loop of the REMOVEJOB case, which goes on at the next index after a removal. */
  function DropConns(conns: seq<Conn>, id: int, i: nat): seq<Conn>
    decreases |conns| - i
  {
    if i >= |conns| then conns
    else if conns[i].hasJob && conns[i].jobid == id then DropConns(RemoveAt(conns, i), id, i + 1)
    else DropConns(conns, id, i + 1)
  }

  function ReadMsg(s: Server, i: nat, m: Msg): Option<Server>
    requires i < |s.conns|
  {
    var socket := s.conns[i].socket;
    match m
    case KillServer => Some(s)
    case NewJobMsg(r) => EnqueueFor(s, i, r)
    case RunJobOkMsg => var j :- RunJobOk(s.jobs, s.conns[i].jobid); Some(s.(jobs := j))
    case EndJobMsg(result) => EndJob(s, i, result)
    case Query => Some(Send(s, Answer(socket)))
    case ClosingQuery => RemoveConnection(Send(s, Answer(socket)), i)
    case Info(id) =>
      if id == -1 && s.jobs.busy > 0 && s.jobs.queue == [] then None
      else RemoveConnection(Send(s, Answer(socket)), i)
    case AskOutput(id) =>
      if id == -1 && s.jobs.busy > 0 && s.jobs.queue == [] then None else Some(Send(s, Answer(socket)))
    case ClearFinished => Some(s.(jobs := s.jobs.(finished := [])))
    case RemoveJobMsg(id) =>
      var (j, removed) :- RemoveJob(s.jobs, socket, id);
      Some(s.(jobs := j, conns := if removed == -1 then s.conns else DropConns(s.conns, removed, 0)))
    case WaitJobMsg(id) => Some(s.(jobs := WaitJob(s.jobs, socket, id)))
    case WaitRunningJobMsg(id) => var j :- WaitRunningJob(s.jobs, socket, id); Some(s.(jobs := j))
    case UrgentMsg(id) => var j :- MoveUrgent(s.jobs, socket, id); Some(s.(jobs := j))
    case SwapJobsMsg(id1, id2) => Some(s.(jobs := SwapJobs(s.jobs, socket, id1, id2)))
    case SetMaxSlotsMsg(n) => Some(s.(jobs := SetMaxSlots(s.jobs, n)))
    case Unknown => Disappear(s, i)
    case EndOfStream => Disappear(s, i)
  }

  function Holding(q: seq<Job>): nat {
    if q == [] then 0 else Holding(q[1..]) + if q[0].state.HoldingClient? then 1 else 0
  }

  lemma {:induction false} HoldingUpdate(q: seq<Job>, k: nat, j: Job)
    requires k < |q| && q[k].state.HoldingClient? && !j.state.HoldingClient?
    ensures Holding(q[k := j]) < Holding(q)
  {
    var q' := q[k := j];
    if k == 0 {
      assert q'[1..] == q[1..];
    } else {
      assert q'[1..] == q[1..][k - 1 := j];
      HoldingUpdate(q[1..], k - 1, j);
    }
  }

  /** The loop that answers the clients held back while the queue was full. */
  function WakeAll(s: Server): Option<Server>
    decreases Holding(s.jobs.queue)
  {
    var k := FindHolding(s.jobs.queue);
    if k < 0 then Some(s)
    else
      var id := s.jobs.queue[k].id;
      var c := ConnOf(s.conns, id);
      if c < 0 then None
      else
        HoldingUpdate(s.jobs.queue, k, Woken(s.jobs.queue[k]));
        WakeAll(Send(s.(jobs := WakeHoldClient(s.jobs).0), NewJobOk(s.conns[c].socket, id)))
  }

  /** s_mark_job_running and s_runjob for the job at position `k`. */
  function StartJob(s: Server, k: nat): Option<Server>
    requires k < |s.jobs.queue|
  {
    var j := s.jobs.queue[k];
    var c := ConnOf(s.conns, j.id);
    var jobs :- MarkRunning(s.jobs, j.id);
    if c < 0 then None
    else Some(Send(s.(jobs := jobs), RunJob(s.conns[c].socket, j.id, j.dependencyErrorlevel, j.gpuIds)))
  }

  function LaunchOne(s: Server, query: GpuQuery): Option<Server> {
    var (jobs, k) :- NextRunJob(s.jobs, query);
    if k < 0 then Some(s.(jobs := jobs))
    else
      var s1 :- StartJob(s.(jobs := jobs), k);
      WakeAll(s1)
  }

  function Step(s: Server, e: Event): Option<Server> {
    match e
    case Accept(socket) =>
      Some(if |s.conns| < s.maxConns then s.(conns := s.conns + [Conn(socket, false, 0)]) else s)
    case Read(i, m) => if i < |s.conns| then ReadMsg(s, i, m) else Some(s)
    case Launch(query) => LaunchOne(s, query)
  }

  // ---- runs ----

  predicate HasSocket(conns: seq<Conn>, socket: int) { exists i :: 0 <= i < |conns| && conns[i].socket == socket }

  predicate Waits(w: seq<Waiter>, socket: int) { exists i :: 0 <= i < |w| && w[i].socket == socket }

  predicate JobRuns(s: Jobs, id: int) {
    exists k :: 0 <= k < |s.queue| && s.queue[k].id == id && s.queue[k].state.Running?
  }

  /** How the clients behave. A connection that holds a job asks nothing more than where the
      logs are, reports RUNJOB_OK and ENDJOB only after it was told to run, or closes. One that
      waits for a job only closes. The others do not speak for a job they do not hold. The
      operating system never hands out the descriptor of an open connection. */
  predicate ClientOk(s: Server, e: Event) {
    match e
    case Accept(socket) => !HasSocket(s.conns, socket)
    case Launch(query) => true
    case Read(i, m) =>
      i < |s.conns| ==>
        var c := s.conns[i];
        if c.hasJob then
          m.Query? || m.EndOfStream? || ((m.RunJobOkMsg? || m.EndJobMsg?) && JobRuns(s.jobs, c.jobid))
        else if Waits(s.jobs.waiters, c.socket) then m.EndOfStream?
        else !m.RunJobOkMsg? && !m.EndJobMsg?
  }

  predicate Initial(s: Server) {
    && s.conns == []
    && s.jobs.queue == [] && s.jobs.finished == [] && s.jobs.waiters == [] && s.jobs.sent == []
    && s.jobs.maxJobs == s.maxConns - 5
    && s.jobs.nextId == 0 && s.jobs.busy == 0 && s.jobs.maxSlots >= 1
    && s.jobs.lastErrorlevel == 0 && s.jobs.lastFinishedId == 0 && s.jobs.usedGpus == {}
  }

  /** `states` is a run of the server under the events `evs`, up to the last state. */
  ghost predicate IsRun(states: seq<Server>, evs: seq<Event>) {
    && |states| == |evs| + 1
    && Initial(states[0])
    && forall i :: 0 <= i < |evs| ==>
         ClientOk(states[i], evs[i]) && Step(states[i], evs[i]) == Some(states[i + 1])
  }
}
