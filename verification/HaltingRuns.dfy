/** Runs in which every client keeps to the protocol, and which end the server or lose a wait. */
module HaltingRuns {
  import opened JobTypes
  import opened JobSpec
  import opened JobInvariant
  import opened ServerSpec
  import opened ServerInvariant
  import opened Waiting
  import opened WaitInvariant
  import opened GpuExclusive
  import opened Halting
  import opened Reach
  import Ops = JobOperations

  /** The event ends the server, after a lead in which it lives and all clients keep to the protocol. */
  predicate Ends(s: Server, lead: seq<Event>, e: Event) {
    && After(s, lead).Some?
    && ClientOk(After(s, lead).value, e) && Step(After(s, lead).value, e).None?
  }

  // ---- an oversized job ----

  /** The state after a client connected and submitted a job to an idle server. */
  function Submitted1(s: Server, socket: int, r: Request): Option<Server> {
    var s1 :- Step(s, Accept(socket));
    Step(s1, Read(0, NewJobMsg(r)))
  }

  /** A job that asks for more slots than there are is never started. When its client gives up while
      nothing runs, the whole server ends: job_finished takes the disconnection for the end of a
      running job and finds no busy slot. */
  lemma OversizedJobEndsServer(s: Server, socket: int, r: Request, query: GpuQuery)
    requires Initial(s) && s.maxConns >= 7 && s.jobs.build.Cpu?
    requires r.dependOn == [] && r.gpus == 0 && r.numSlots > s.jobs.maxSlots
    ensures Submitted1(s, socket, r).Some?
    ensures var t := Submitted1(s, socket, r).value;
            && |t.conns| == 1 && t.conns[0].hasJob && t.jobs.queue[Find(t.jobs.queue, t.conns[0].jobid)].state.Queued?
            && LaunchOne(t, query) == Some(t)
            && ClientOk(t, Read(0, EndOfStream)) && Step(t, Read(0, EndOfStream)).None?
  {
    var t := Submitted1(s, socket, r).value;
    var j := Enqueued(s.jobs, r);
    assert t.jobs.queue == [j];
    assert t.conns == [Conn(socket, true, 0)];
    ScanRefuses(t.jobs, j, query);
  }

  lemma ScanRefuses(s: Jobs, j: Job, query: GpuQuery)
    requires s.queue == [j] && s.build.Cpu? && j.numSlots > s.maxSlots - s.busy && j.state.Queued?
    ensures Scan(s, 0, query) == (s, -1)
  {
    assert s.queue[0 := j] == s.queue;
    assert s.(queue := s.queue) == s;
    assert Scan(s, 1, query) == (s, -1);
  }

  // ---- a refused job, and a job of no slots ----

  lemma ConnectOne(s: Server)
    requires Initial(s) && s.maxConns >= 1
    ensures After(s, [Accept(4)]) == Some(Accepted(s, 4)) && Accepted(s, 4).conns == [Conn(4, false, 0)]
  {
    FirstConnects(s, 4);
  }

  /** A server that may keep no job refuses the first one. It cleans up as if the job had ended, finds no
      busy slot, and ends. */
  lemma RefusalEndsServer(s: Server, r: Request)
    requires Initial(s) && 1 <= s.maxConns <= 6 && !r.waitEnqueuing
    ensures Ends(s, [Accept(4)], Read(0, NewJobMsg(r)))
  {
    ConnectOne(s);
    AfterCore(s, [Accept(4)]);
    RefusalHalts(Accepted(s, 4), r);
  }

  lemma RefusalHalts(t: Server, r: Request)
    requires Core(t) && t.conns == [Conn(4, false, 0)] && t.jobs.queue == [] && t.jobs.busy == 0 && t.jobs.waiters == []
    requires t.jobs.maxJobs <= 1 && !r.waitEnqueuing
    ensures ClientOk(t, Read(0, NewJobMsg(r))) && Step(t, Read(0, NewJobMsg(r))).None?
  {
    NewJobDefined(t.jobs, r);
    Ops.NewJobOk(t.jobs, r);
    FindAt(NewJob(t.jobs, r).value.queue, 0);
  }

  /** A job of no slots runs alone. When it ends no slot is busy, and the server ends with it. */
  lemma NoSlotsEndServer(s: Server, r: Request, query: GpuQuery, result: Result)
    requires Initial(s) && s.maxConns >= 7 && s.jobs.build.Cpu?
    requires r.dependOn == [] && r.gpus == 0 && r.numSlots == 0
    ensures Ends(s, [Accept(4)] + [Read(0, NewJobMsg(r))] + [Launch(query)], Read(0, EndJobMsg(result)))
  {
    ConnectOne(s);
    var c := Accepted(s, 4);
    AfterCore(s, [Accept(4)]);
    SubmitAlone(c, 0, r);
    MaySubmit(c, 0, r);
    AfterNext(s, [Accept(4)], c, Read(0, NewJobMsg(r)));
    var evs := [Accept(4)] + [Read(0, NewJobMsg(r))];
    var t := Submitted(c, 0, [], Enqueued(s.jobs, r));
    AfterCore(s, evs);
    LaunchOnly(t, query);
    AfterNext(s, evs, t, Launch(query));
    EndIdle(Step(t, Launch(query)).value, result);
  }

  /** The only job, of no slots, is launched. */
  lemma LaunchOnly(t: Server, query: GpuQuery)
    requires Core(t) && t.jobs.build.Cpu? && t.jobs.busy == 0 && t.conns == [Conn(4, true, 0)]
    requires |t.jobs.queue| == 1 && t.jobs.queue[0].id == 0 && t.jobs.queue[0].state.Queued?
    requires t.jobs.queue[0].numSlots == 0 && t.jobs.queue[0].dependOn == []
    ensures Step(t, Launch(query)).Some?
    ensures var u := Step(t, Launch(query)).value; u.conns == t.conns && u.jobs.busy == 0 && JobRuns(u.jobs, 0)
  {
    var j := t.jobs.queue[0];
    assert t.jobs.queue[0 := j] == t.jobs.queue && t.jobs.(queue := t.jobs.queue) == t.jobs;
    assert Scan(t.jobs, 0, query) == (t.jobs, 0);
    LaunchTakes(t, query, t.jobs, 0);
    assert Launched(t, t.jobs, 0).jobs.queue[0].state.Running?;
  }

  lemma EndIdle(u: Server, result: Result)
    requires u.conns == [Conn(4, true, 0)] && u.jobs.busy == 0 && JobRuns(u.jobs, 0)
    ensures ClientOk(u, Read(0, EndJobMsg(result))) && Step(u, Read(0, EndJobMsg(result))).None?
  {
  }

  // ---- two jobs in the queue, two connections without a job ----

  const CONNECTIONS := [Accept(4), Accept(5), Accept(6), Accept(7)]

  function Lead(r1: Request, r2: Request): seq<Event> {
    CONNECTIONS + [Read(0, NewJobMsg(r1))] + [Read(1, NewJobMsg(r2))]
  }

  predicate Simple(r: Request) { r.dependOn == [] }

  /** The queue after the lead. */
  ghost predicate TwoQueued(s: Server, r1: Request, r2: Request, t: Server) {
    var j1 := Enqueued(s.jobs, r1);
    var j2 := Enqueued(s.jobs.(queue := [j1], nextId := 1), r2);
    && t == s.(jobs := s.jobs.(queue := [j1, j2], nextId := 2, sent := t.jobs.sent), conns := t.conns)
    && t.conns == [Conn(4, true, 0), Conn(5, true, 1), Conn(6, false, 0), Conn(7, false, 0)]
  }

  lemma Connect(s: Server)
    requires Initial(s) && s.maxConns >= 8
    ensures After(s, CONNECTIONS) ==
              Some(s.(conns := [Conn(4, false, 0), Conn(5, false, 0), Conn(6, false, 0), Conn(7, false, 0)]))
  {
    var a := Accepted(s, 4);
    var b := Accepted(a, 5);
    var c := Accepted(b, 6);
    FirstConnects(s, 4);
    assert [Accept(4)] + [Accept(5)] == [Accept(4), Accept(5)];
    assert [Accept(4), Accept(5)] + [Accept(6)] == [Accept(4), Accept(5), Accept(6)];
    assert [Accept(4), Accept(5), Accept(6)] + [Accept(7)] == CONNECTIONS;
    Connects(a, 5);
    AfterNext(s, [Accept(4)], a, Accept(5));
    Connects(b, 6);
    AfterNext(s, [Accept(4), Accept(5)], b, Accept(6));
    Connects(c, 7);
    AfterNext(s, [Accept(4), Accept(5), Accept(6)], c, Accept(7));
    assert Accepted(c, 7).conns == [Conn(4, false, 0), Conn(5, false, 0), Conn(6, false, 0), Conn(7, false, 0)];
  }

  lemma SubmitTwo(s: Server, r1: Request, r2: Request) returns (t: Server)
    requires Initial(s) && s.maxConns >= 8 && Simple(r1) && Simple(r2)
    ensures After(s, Lead(r1, r2)) == Some(t) && TwoQueued(s, r1, r2, t)
  {
    Connect(s);
    var d := SubmitFirst(s, CONNECTIONS, After(s, CONNECTIONS).value, r1);
    t := SubmitSecond(s, CONNECTIONS + [Read(0, NewJobMsg(r1))], d, r1, r2);
  }

  lemma SubmitFirst(s: Server, evs: seq<Event>, c: Server, r1: Request) returns (d: Server)
    requires Initial(s) && s.maxConns >= 8 && Simple(r1) && After(s, evs) == Some(c)
    requires c == s.(conns := [Conn(4, false, 0), Conn(5, false, 0), Conn(6, false, 0), Conn(7, false, 0)])
    ensures After(s, evs + [Read(0, NewJobMsg(r1))]) == Some(d)
    ensures d == s.(jobs := s.jobs.(queue := [Enqueued(s.jobs, r1)], nextId := 1, sent := d.jobs.sent),
                    conns := [Conn(4, true, 0), Conn(5, false, 0), Conn(6, false, 0), Conn(7, false, 0)])
  {
    AfterCore(s, evs);
    SubmitAlone(c, 0, r1);
    MaySubmit(c, 0, r1);
    AfterNext(s, evs, c, Read(0, NewJobMsg(r1)));
    var j1 := Enqueued(s.jobs, r1);
    d := Submitted(c, 0, [], j1);
    assert [] + [j1] == [j1];
    assert d.conns == [Conn(4, true, 0), Conn(5, false, 0), Conn(6, false, 0), Conn(7, false, 0)];
  }

  lemma SubmitSecond(s: Server, evs: seq<Event>, d: Server, r1: Request, r2: Request) returns (t: Server)
    requires Initial(s) && s.maxConns >= 8 && Simple(r2) && After(s, evs) == Some(d)
    requires d == s.(jobs := s.jobs.(queue := [Enqueued(s.jobs, r1)], nextId := 1, sent := d.jobs.sent),
                     conns := [Conn(4, true, 0), Conn(5, false, 0), Conn(6, false, 0), Conn(7, false, 0)])
    ensures After(s, evs + [Read(1, NewJobMsg(r2))]) == Some(t) && TwoQueued(s, r1, r2, t)
  {
    AfterCore(s, evs);
    SubmitAlone(d, 1, r2);
    MaySubmit(d, 1, r2);
    AfterNext(s, evs, d, Read(1, NewJobMsg(r2)));
    var j1, j2 := Enqueued(s.jobs, r1), Enqueued(d.jobs, r2);
    t := Submitted(d, 1, d.jobs.queue, j2);
    assert [j1] + [j2] == [j1, j2];
    assert t.conns == [Conn(4, true, 0), Conn(5, true, 1), Conn(6, false, 0), Conn(7, false, 0)];
    assert Enqueued(s.jobs.(queue := [j1], nextId := 1), r2) == j2;
  }

  lemma UrgentHead(s: Server, r1: Request, r2: Request, t: Server)
    requires Initial(s) && TwoQueued(s, r1, r2, t)
    ensures ClientOk(t, Read(2, UrgentMsg(0))) && Step(t, Read(2, UrgentMsg(0))).None?
  {
    assert Find(t.jobs.queue, 0) == 0;
  }

  /** URGENT for the job at the head of a queue of two ends the server. */
  lemma UrgentHeadEndsServer(s: Server, r1: Request, r2: Request)
    requires Initial(s) && s.maxConns >= 8 && Simple(r1) && Simple(r2)
    ensures Ends(s, Lead(r1, r2), Read(2, UrgentMsg(0)))
  {
    var t := SubmitTwo(s, r1, r2);
    UrgentHead(s, r1, r2, t);
  }

  lemma WaitForSecond(s: Server, r1: Request, r2: Request, t: Server)
    requires Initial(s) && TwoQueued(s, r1, r2, t)
    ensures ClientOk(t, Read(2, WaitJobMsg(1)))
    ensures Step(t, Read(2, WaitJobMsg(1))) == Some(t.(jobs := t.jobs.(waiters := [Waiter(6, 1)])))
  {
    assert Find(t.jobs.queue, 1) == 1;
    assert GetJob(t.jobs, 1) == Some(t.jobs.queue[1]);
    assert [] + [Waiter(6, 1)] == [Waiter(6, 1)];
  }

  /** A client waits for a job that another client removes: the wait is lost, no answer will come. */
  lemma RemovalLosesWait(s: Server, r1: Request, r2: Request)
    requires Initial(s) && s.maxConns >= 8 && Simple(r1) && Simple(r2)
    ensures var evs := Lead(r1, r2) + [Read(2, WaitJobMsg(1))] + [Read(3, RemoveJobMsg(1))];
            After(s, evs).Some? && HasLostWait(After(s, evs).value.jobs)
  {
    var t := SubmitTwo(s, r1, r2);
    var evs := Lead(r1, r2) + [Read(2, WaitJobMsg(1))];
    WaitForSecond(s, r1, r2, t);
    AfterNext(s, Lead(r1, r2), t, Read(2, WaitJobMsg(1)));
    var u := t.(jobs := t.jobs.(waiters := [Waiter(6, 1)]));
    AfterCore(s, evs);
    RemoveAwaitedOne(u);
    AfterNext(s, evs, u, Read(3, RemoveJobMsg(1)));
  }

  lemma RemoveAwaitedOne(u: Server)
    requires Core(u) && |u.jobs.queue| == 2 && u.jobs.queue[1].id == 1
    requires u.jobs.queue[1].state != Running && u.jobs.waiters == [Waiter(6, 1)] && u.jobs.finished == []
    requires |u.conns| == 4 && u.conns[3] == Conn(7, false, 0)
    ensures ClientOk(u, Read(3, RemoveJobMsg(1)))
    ensures Step(u, Read(3, RemoveJobMsg(1))).Some? && HasLostWait(Step(u, Read(3, RemoveJobMsg(1))).value.jobs)
  {
    FindAt(u.jobs.queue, 1);
    assert AllKept(u.jobs.finished) && !Awaited(u.jobs.waiters, 0);
    RemoveJobWait(u.jobs, 7, 1);
    Ops.RemoveJobOk(u.jobs, 7, 1);
    assert RemoveJob(u.jobs, 7, 1).value.0.waiters[0].jobid !in Ids(RemoveJob(u.jobs, 7, 1).value.0.queue);
  }

  /** The first job, without devices, is launched. */
  lemma LaunchPlain(s: Server, r1: Request, r2: Request, t: Server)
    requires Initial(s) && s.jobs.build.Gpu? && TwoQueued(s, r1, r2, t) && Core(t) && s.maxConns >= 8
    requires Simple(r1) && Simple(r2) && r1.waitFreeGpus && r1.gpus == 0 && r1.numSlots == 1
    ensures Step(t, Launch(FreeLists([]))).Some?
    ensures var u := Step(t, Launch(FreeLists([]))).value;
            && u.conns == t.conns && u.jobs.busy == 1 && u.jobs.build == s.jobs.build
            && |u.jobs.queue| == 2 && u.jobs.queue[1] == t.jobs.queue[1] && u.jobs.queue[0].id == 0
  {
    var j1 := t.jobs.queue[0];
    assert t.jobs.queue[0 := j1] == t.jobs.queue && t.jobs.(queue := t.jobs.queue) == t.jobs;
    assert Scan(t.jobs, 0, FreeLists([])) == (t.jobs, 0);
    LaunchTakes(t, FreeLists([]), t.jobs.(busy := 1), 0);
  }

  lemma EndUntaken(u: Server)
    requires |u.conns| == 4 && u.conns[1] == Conn(5, true, 1) && u.jobs.build.Gpu?
    requires |u.jobs.queue| == 2 && u.jobs.queue[0].id == 0 && u.jobs.queue[1].id == 1
    requires u.jobs.queue[1].gpuIds != [] && u.jobs.queue[1].gpuIds[0] == -1
    ensures ClientOk(u, Read(1, EndOfStream)) && Step(u, Read(1, EndOfStream)).None?
  {
    assert Find(u.jobs.queue, 1) == 1;
    EndUnfold(u.jobs, KILLED, 1);
  }

  /** While one job runs, another one waits for its first devices and carries the ids -1. When its
      client goes away the server ends, because these are given back. */
  lemma UntakenDevicesEndServer(s: Server, r1: Request, r2: Request)
    requires Initial(s) && s.maxConns >= 8 && s.jobs.build.Gpu? && Simple(r1) && Simple(r2)
    requires r1.waitFreeGpus && r1.gpus == 0 && r1.numSlots == 1 && r2.waitFreeGpus && r2.gpus > 0
    ensures Ends(s, Lead(r1, r2) + [Launch(FreeLists([]))], Read(1, EndOfStream))
  {
    var t := SubmitTwo(s, r1, r2);
    AfterCore(s, Lead(r1, r2));
    LaunchPlain(s, r1, r2, t);
    AfterNext(s, Lead(r1, r2), t, Launch(FreeLists([])));
    EndUntaken(Step(t, Launch(FreeLists([]))).value);
  }

  /** A job with a device that does not exist ends the server when it is to be launched. */
  lemma ForeignDeviceEndsServer(s: Server, r1: Request, r2: Request, query: GpuQuery)
    requires Initial(s) && s.maxConns >= 8 && s.jobs.build.Gpu? && Simple(r1) && Simple(r2)
    requires !r1.waitFreeGpus && !InRange(r1.gpuIds, s.jobs.build.total) && r1.numSlots <= s.jobs.maxSlots
    requires query.FreeLists? && QueryOk(query, s.jobs.build.total)
    ensures Ends(s, Lead(r1, r2), Launch(query))
  {
    var t := SubmitTwo(s, r1, r2);
    AfterCore(s, Lead(r1, r2));
    assert FirstIsForeign(t.jobs, 0, query);
    LaunchHalts(t, query);
  }
}
