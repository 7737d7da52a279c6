/** How the claims get lost: a job that passed the device test, but was not launched, keeps the ids of
    the test; another job is launched on the same device; the first one's client goes away. */
module GpuLost {
  import opened JobTypes
  import opened JobSpec
  import opened ServerSpec
  import opened ServerInvariant
  import opened GpuExclusive
  import opened GpuRuns
  import opened Reach

  const PLAIN := Request(0, true, [], 1, false, [], false)
  const AFTER_PLAIN := Request(1, true, [], 1, false, [0], false)
  const ON_DEVICE := Request(1, true, [], 1, false, [], false)

  /** One device and two slots. */
  predicate OneDevice(s: Server) {
    Initial(s) && s.jobs.build == Gpu(1) && s.jobs.maxSlots == 2 && s.maxConns >= 9
  }

  const QUERY := FreeLists([[0], [0], [0]])

  const CONNECTIONS := [Accept(4), Accept(5), Accept(6)]
  const SUBMISSIONS := [Read(0, NewJobMsg(PLAIN)), Read(1, NewJobMsg(AFTER_PLAIN)), Read(2, NewJobMsg(ON_DEVICE))]

  // The jobs: one without devices, one that depends on it, one that does not.
  const FIRST := Job(0, Queued, 1, 0, true, [], false, [], [1], 0, 0)
  const SECOND := Job(1, Allocating, 1, 1, true, [-1], false, [0], [], 0, 0)
  const THIRD := Job(2, Allocating, 1, 1, true, [-1], false, [], [], 0, 0)

  /** The state after the submissions. */
  function Waiting3(s: Server): Server {
    s.(jobs := s.jobs.(queue := [FIRST, SECOND, THIRD], nextId := 3,
                       sent := [NewJobOk(4, 0), NewJobOk(5, 1), NewJobOk(6, 2)]),
       conns := [Conn(4, true, 0), Conn(5, true, 1), Conn(6, true, 2)])
  }

  lemma Connect(s: Server)
    requires OneDevice(s)
    ensures After(s, CONNECTIONS) ==
              Some(s.(conns := [Conn(4, false, 0), Conn(5, false, 0), Conn(6, false, 0)]))
  {
    var a, b := Accepted(s, 4), Accepted(Accepted(s, 4), 5);
    FirstConnects(s, 4);
    assert [Accept(4)] + [Accept(5)] == [Accept(4), Accept(5)];
    assert [Accept(4), Accept(5)] + [Accept(6)] == CONNECTIONS;
    Connects(a, 5);
    AfterNext(s, [Accept(4)], a, Accept(5));
    Connects(b, 6);
    AfterNext(s, [Accept(4), Accept(5)], b, Accept(6));
    assert Accepted(b, 6).conns == [Conn(4, false, 0), Conn(5, false, 0), Conn(6, false, 0)];
  }

  lemma Submit(s: Server)
    requires OneDevice(s)
    ensures After(s, CONNECTIONS + SUBMISSIONS) == Some(Waiting3(s))
  {
    Connect(s);
    var d := SubmitFirst(s, CONNECTIONS, After(s, CONNECTIONS).value);
    SubmitSecond(s, CONNECTIONS + [SUBMISSIONS[0]], d);
    assert CONNECTIONS + SUBMISSIONS == CONNECTIONS + [SUBMISSIONS[0]] + [SUBMISSIONS[1]] + [SUBMISSIONS[2]];
  }

  lemma SubmitFirst(s: Server, evs: seq<Event>, c: Server) returns (d: Server)
    requires OneDevice(s) && After(s, evs) == Some(c)
    requires c == s.(conns := [Conn(4, false, 0), Conn(5, false, 0), Conn(6, false, 0)])
    ensures After(s, evs + [SUBMISSIONS[0]]) == Some(d)
    ensures d == s.(jobs := s.jobs.(queue := [Job(0, Queued, 1, 0, true, [], false, [], [], 0, 0)], nextId := 1,
                                    sent := [NewJobOk(4, 0)]),
                    conns := [Conn(4, true, 0), Conn(5, false, 0), Conn(6, false, 0)])
  {
    AfterCore(s, evs);
    SubmitAlone(c, 0, PLAIN);
    MaySubmit(c, 0, PLAIN);
    AfterNext(s, evs, c, SUBMISSIONS[0]);
    d := FirstQueued(s, c);
  }

  lemma FirstQueued(s: Server, c: Server) returns (d: Server)
    requires OneDevice(s) && c == s.(conns := [Conn(4, false, 0), Conn(5, false, 0), Conn(6, false, 0)])
    ensures d == Submitted(c, 0, c.jobs.queue, Enqueued(c.jobs, PLAIN))
    ensures d == s.(jobs := s.jobs.(queue := [Job(0, Queued, 1, 0, true, [], false, [], [], 0, 0)], nextId := 1,
                                    sent := [NewJobOk(4, 0)]),
                    conns := [Conn(4, true, 0), Conn(5, false, 0), Conn(6, false, 0)])
  {
    assert Enqueued(c.jobs, PLAIN) == Job(0, Queued, 1, 0, true, [], false, [], [], 0, 0);
    d := Submitted(c, 0, c.jobs.queue, Enqueued(c.jobs, PLAIN));
    assert d.jobs.queue == [Enqueued(c.jobs, PLAIN)] && d.jobs.sent == [NewJobOk(4, 0)];
    assert d.conns == [Conn(4, true, 0), Conn(5, false, 0), Conn(6, false, 0)];
  }

  lemma SubmitSecond(s: Server, evs: seq<Event>, d: Server)
    requires OneDevice(s) && After(s, evs) == Some(d)
    requires d == s.(jobs := s.jobs.(queue := [Job(0, Queued, 1, 0, true, [], false, [], [], 0, 0)], nextId := 1,
                                     sent := [NewJobOk(4, 0)]),
                     conns := [Conn(4, true, 0), Conn(5, false, 0), Conn(6, false, 0)])
    ensures After(s, evs + [SUBMISSIONS[1]] + [SUBMISSIONS[2]]) == Some(Waiting3(s))
  {
    AfterCore(s, evs);
    SubmitAfter(d, 1, AFTER_PLAIN, 0);
    MaySubmit(d, 1, AFTER_PLAIN);
    AfterNext(s, evs, d, SUBMISSIONS[1]);
    var me := Enqueued(d.jobs, AFTER_PLAIN).(dependOn := [0]);
    assert me == SECOND;
    assert [] + [1] == [1];
    assert d.jobs.queue[0 := AddNotify(d.jobs.queue[0], 1)] == [FIRST];
    SubmitThird(s, evs + [SUBMISSIONS[1]], Submitted(d, 1, [FIRST], SECOND));
  }

  lemma SubmitThird(s: Server, evs: seq<Event>, e: Server)
    requires OneDevice(s) && After(s, evs) == Some(e)
    requires e.jobs.queue == [FIRST] + [SECOND] && e.jobs.sent == [NewJobOk(4, 0)] + [NewJobOk(5, 1)]
    requires e.conns == [Conn(4, true, 0), Conn(5, false, 0), Conn(6, false, 0)][1 := Conn(5, true, 1)]
    requires e == s.(jobs := s.jobs.(queue := e.jobs.queue, nextId := 2, sent := e.jobs.sent), conns := e.conns)
    ensures After(s, evs + [SUBMISSIONS[2]]) == Some(Waiting3(s))
  {
    AfterCore(s, evs);
    SubmitAlone(e, 2, ON_DEVICE);
    MaySubmit(e, 2, ON_DEVICE);
    assert Enqueued(e.jobs, ON_DEVICE) == THIRD;
    AfterNext(s, evs, e, SUBMISSIONS[2]);
    var f := Submitted(e, 2, e.jobs.queue, THIRD);
    assert f.jobs.queue == [FIRST, SECOND, THIRD];
    assert f.conns == [Conn(4, true, 0), Conn(5, true, 1), Conn(6, true, 2)];
    assert f.jobs.sent == [NewJobOk(4, 0), NewJobOk(5, 1), NewJobOk(6, 2)];
  }

  /** The first launch takes the job without devices. */
  function Running1(s: Server): Server {
    var t := Waiting3(s);
    t.(jobs := t.jobs.(queue := [FIRST.(state := Running), SECOND, THIRD], busy := 1,
                       sent := t.jobs.sent + [RunJob(4, 0, 0, [])]))
  }

  lemma LaunchFirst(s: Server)
    requires OneDevice(s) && Core(Waiting3(s))
    ensures Step(Waiting3(s), Launch(QUERY)) == Some(Running1(s))
  {
    var t := Waiting3(s);
    assert t.jobs.queue[0 := FIRST] == t.jobs.queue;
    assert t.jobs.(queue := t.jobs.queue) == t.jobs;
    assert Scan(t.jobs, 0, QUERY) == (t.jobs, 0);
    var jobs := t.jobs.(busy := 1);
    LaunchTakes(t, QUERY, jobs, 0);
    assert jobs.queue[0 := FIRST.(state := Running)] == Running1(s).jobs.queue;
  }

  /** The second launch writes the device into the job that is blocked, and launches the other one on it. */
  function Running2(s: Server): Server {
    var t := Running1(s);
    t.(jobs := t.jobs.(queue := [FIRST.(state := Running), SECOND.(gpuIds := [0]),
                                THIRD.(gpuIds := [0], state := Running)],
                       busy := 2, usedGpus := {0}, sent := t.jobs.sent + [RunJob(6, 2, 0, [0])]))
  }

  lemma DeviceZero()
    ensures Unclaimed([0], {}) == [0] && ToSet([0]) == {0} && [0][..1] == [0]
  {
    assert [0][..0] == [];
    assert ToSet([0]) == {0} by { assert [0][0] == 0; }
  }

  lemma ScanSecond(s: Jobs)
    requires s.queue == [FIRST.(state := Running), SECOND, THIRD] && s.build == Gpu(1) && s.usedGpus == {}
    requires s.maxSlots == 2 && s.busy == 1
    ensures Scan(s, 0, QUERY) ==
              (s.(queue := [FIRST.(state := Running), SECOND.(gpuIds := [0]), THIRD.(gpuIds := [0])]), 2)
  {
    DeviceZero();
    assert QUERY.orders[1] == [0] && QUERY.orders[2] == [0];
    var q1 := s.queue[1 := SECOND.(gpuIds := [0])];
    var s1 := s.(queue := q1);
    assert Tentative(s, s.queue[1], 1, QUERY) == Some(q1[1]);
    assert DependencyUnfinished(s1, q1[1].dependOn[0]);
    assert Blocked(s1, q1[1]);
    assert Tentative(s1, s1.queue[2], 2, QUERY) == Some(THIRD.(gpuIds := [0]));
    var q2 := q1[2 := THIRD.(gpuIds := [0])];
    assert q2 == [FIRST.(state := Running), SECOND.(gpuIds := [0]), THIRD.(gpuIds := [0])];
    assert Scan(s1, 2, QUERY) == (s.(queue := q2), 2);
    assert Scan(s, 1, QUERY) == Scan(s1, 2, QUERY);
  }

  lemma ChooseThird(s: Jobs)
    requires s.queue == [FIRST.(state := Running), SECOND, THIRD] && s.build == Gpu(1) && s.usedGpus == {}
    requires s.maxSlots == 2 && s.busy == 1
    ensures NextRunJob(s, QUERY) ==
              Some((s.(queue := [FIRST.(state := Running), SECOND.(gpuIds := [0]), THIRD.(gpuIds := [0])],
                       busy := 2, usedGpus := {0}), 2))
  {
    ScanSecond(s);
    DeviceZero();
    var scanned := s.(queue := [FIRST.(state := Running), SECOND.(gpuIds := [0]), THIRD.(gpuIds := [0])], busy := 2);
    assert InRange([0], 1) && s.usedGpus + {0} == {0};
    assert ClaimGpus(scanned, scanned.queue[2]) == Some(scanned.(usedGpus := {0}));
  }

  lemma LaunchSecond(s: Server)
    requires OneDevice(s) && Core(Running1(s))
    ensures Step(Running1(s), Launch(QUERY)) == Some(Running2(s))
  {
    var t := Running1(s);
    ChooseThird(t.jobs);
    var jobs := NextRunJob(t.jobs, QUERY).value.0;
    LaunchTakes(t, QUERY, jobs, 2);
    assert jobs.queue[2 := jobs.queue[2].(state := Running)] == Running2(s).jobs.queue;
  }

  const EVENTS := CONNECTIONS + SUBMISSIONS + [Launch(QUERY)] + [Launch(QUERY)]

  lemma Lead(s: Server)
    requires OneDevice(s)
    ensures After(s, EVENTS) == Some(Running2(s))
  {
    var evs := CONNECTIONS + SUBMISSIONS;
    Submit(s);
    AfterCore(s, evs);
    LaunchFirst(s);
    AfterNext(s, evs, Waiting3(s), Launch(QUERY));
    AfterCore(s, evs + [Launch(QUERY)]);
    LaunchSecond(s);
    AfterNext(s, evs + [Launch(QUERY)], Running1(s), Launch(QUERY));
  }

  /** All events are those of automatic jobs, every client keeps to the protocol, and in the end a job
      runs on a device that counts as free. */
  lemma ClaimLost(s: Server)
    requires OneDevice(s)
    ensures var evs := EVENTS + [Read(1, EndOfStream)];
            && After(s, evs).Some? && AutomaticRun(States(s, evs), evs)
            && !GpuOk(After(s, evs).value)
            && Held(After(s, evs).value.jobs.queue, 0) && 0 !in After(s, evs).value.jobs.usedGpus
  {
    var evs := EVENTS + [Read(1, EndOfStream)];
    CloseSecond(s);
    AllAutomatic(s, evs);
    var t := After(s, evs).value;
    assert !GpuOk(t) by { assert 0 in t.jobs.usedGpus <==> false; }
  }

  lemma CloseSecond(s: Server)
    requires OneDevice(s)
    ensures var t := After(s, EVENTS + [Read(1, EndOfStream)]);
            t.Some? && Held(t.value.jobs.queue, 0) && 0 !in t.value.jobs.usedGpus
  {
    Lead(s);
    AfterCore(s, EVENTS);
    var t := Running2(s);
    Close(t);
    Closes(t, 1);
    AfterNext(s, EVENTS, t, Read(1, EndOfStream));
  }

  lemma Close(t: Server)
    requires Core(t) && t.jobs.build == Gpu(1) && t.jobs.busy == 2 && t.jobs.usedGpus == {0}
    requires t.jobs.queue == [FIRST.(state := Running), SECOND.(gpuIds := [0]), THIRD.(gpuIds := [0], state := Running)]
    requires t.conns == [Conn(4, true, 0), Conn(5, true, 1), Conn(6, true, 2)] && t.jobs.waiters == []
    ensures Disappear(t, 1).Some?
    ensures var u := Disappear(t, 1).value; Held(u.jobs.queue, 0) && 0 !in u.jobs.usedGpus
  {
    EndSecond(t.jobs);
    var jobs := JobFinished(t.jobs, KILLED, 1).value;
    assert CheckNotify(jobs, 1) == Some(jobs);
    assert Holds(jobs.queue[1], 0);
  }

  lemma EndSecond(s: Jobs)
    requires s.build == Gpu(1) && s.busy == 2 && s.usedGpus == {0} && s.waiters == []
    requires s.queue == [FIRST.(state := Running), SECOND.(gpuIds := [0]), THIRD.(gpuIds := [0], state := Running)]
    ensures JobFinished(s, KILLED, 1).Some?
    ensures var t := JobFinished(s, KILLED, 1).value;
            t.queue == [s.queue[0], s.queue[2]] && t.usedGpus == {} && t.waiters == []
  {
    var q := s.queue;
    assert Find(q, 1) == 1;
    DeviceZero();
    assert InRange([0], 1);
    var u := NotifyAll(RecordEnd(FreeGpus(s, q[1]).value, 1, KILLED), [], -1);
    assert RemoveAt(u.queue, 1) == [q[0], q[2]];
  }

  lemma EventsBeforeLaunches(evs: seq<Event>)
    requires evs == EVENTS + [Read(1, EndOfStream)]
    ensures |evs| == 9
    ensures evs[..6] == CONNECTIONS + SUBMISSIONS && evs[..7] == CONNECTIONS + SUBMISSIONS + [Launch(QUERY)]
  {
    assert |CONNECTIONS| == 3 && |SUBMISSIONS| == 3;
    assert evs == (CONNECTIONS + SUBMISSIONS) + [Launch(QUERY), Launch(QUERY), Read(1, EndOfStream)];
  }

  lemma StatesBeforeLaunches(s: Server, evs: seq<Event>)
    requires OneDevice(s) && After(s, evs).Some? && evs == EVENTS + [Read(1, EndOfStream)]
    ensures |States(s, evs)| == 10 && States(s, evs)[6] == Waiting3(s) && States(s, evs)[7] == Running1(s)
  {
    var lead := CONNECTIONS + SUBMISSIONS;
    Submit(s);
    AfterCore(s, lead);
    LaunchFirst(s);
    AfterNext(s, lead, Waiting3(s), Launch(QUERY));
    EventsBeforeLaunches(evs);
    StateAt(s, evs, 6);
    StateAt(s, evs, 7);
  }

  /** Connecting and submitting automatic jobs is part of such runs whatever the state is. */
  lemma LeadAutomatic(s: Server, i: nat)
    requires i < 6
    ensures Automatic(s, (CONNECTIONS + SUBMISSIONS)[i])
  {
    var e := (CONNECTIONS + SUBMISSIONS)[i];
    if i < 3 {
      assert e == CONNECTIONS[i];
    } else {
      assert e == SUBMISSIONS[i - 3];
    }
  }

  lemma EventAutomatic(s: Server, evs: seq<Event>, i: nat)
    requires evs == EVENTS + [Read(1, EndOfStream)] && i < |evs|
    requires i == 6 || i == 7 ==> s.jobs.build == Gpu(1)
    ensures Automatic(s, evs[i])
  {
    if i < 6 {
      assert evs[i] == (CONNECTIONS + SUBMISSIONS)[i];
      LeadAutomatic(s, i);
    } else if i < 8 {
      assert evs[i] == Launch(QUERY);
      assert QueryOk(QUERY, 1);
    } else {
      assert evs[i] == Read(1, EndOfStream);
    }
  }

  lemma AllAutomatic(s: Server, evs: seq<Event>)
    requires OneDevice(s) && After(s, evs).Some? && evs == EVENTS + [Read(1, EndOfStream)]
    ensures AutomaticRun(States(s, evs), evs)
  {
    AfterIsRun(s, evs);
    StatesBeforeLaunches(s, evs);
    StatesAre(s, evs);
    var states := States(s, evs);
    forall i | 0 <= i < |evs| ensures Automatic(states[i], evs[i]) { EventAutomatic(states[i], evs, i); }
  }
}
