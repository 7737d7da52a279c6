/** A run in which a job overtakes the job it depends on, because that one's client is held. */
module HeldRuns {
  import opened JobTypes
  import opened JobSpec
  import opened ServerSpec
  import opened ServerInvariant
  import opened Reach

  const PLAIN := Request(0, true, [], 1, false, [], false)
  const PATIENT := Request(0, true, [], 1, false, [], true)
  const DEPENDENT := Request(0, true, [], 1, false, [2], false)

  const DONE := Result(0, false)
  const QUERY := QueryFailed

  /** A CPU build that keeps two jobs at a time. */
  predicate TwoPlaces(s: Server) { Initial(s) && s.jobs.build.Cpu? && s.maxConns == 8 }

  const FIRST := Job(0, Queued, 1, 0, true, [], false, [], [], 0, 0)
  const SECOND := Job(1, Queued, 1, 0, true, [], false, [], [], 0, 0)
  const THIRD := Job(2, HoldingClient, 1, 0, true, [], false, [], [], 0, 0)
  const FOURTH := Job(3, Queued, 1, 0, true, [], false, [2], [], 0, 0)

  const CONNECTIONS := [Accept(4), Accept(5), Accept(6), Accept(7)]

  /** The state with these jobs and connections; what was sent and how the last job ended is left open. */
  predicate With(s: Server, t: Server, queue: seq<Job>, nextId: int, busy: int, conns: seq<Conn>) {
    && t == s.(jobs := s.jobs.(queue := queue, nextId := nextId, busy := busy, sent := t.jobs.sent,
                               lastErrorlevel := t.jobs.lastErrorlevel, lastFinishedId := t.jobs.lastFinishedId),
               conns := conns)
  }

  lemma Connect(s: Server) returns (t: Server)
    requires TwoPlaces(s)
    ensures After(s, CONNECTIONS) == Some(t)
    ensures With(s, t, [], 0, 0, [Conn(4, false, 0), Conn(5, false, 0), Conn(6, false, 0), Conn(7, false, 0)])
  {
    var a := Accepted(s, 4);
    var b := Accepted(a, 5);
    var c := Accepted(b, 6);
    FirstConnects(s, 4);
    Connects(a, 5);
    AfterNext(s, [Accept(4)], a, Accept(5));
    Connects(b, 6);
    AfterNext(s, [Accept(4)] + [Accept(5)], b, Accept(6));
    Connects(c, 7);
    AfterNext(s, [Accept(4)] + [Accept(5)] + [Accept(6)], c, Accept(7));
    assert [Accept(4)] + [Accept(5)] + [Accept(6)] + [Accept(7)] == CONNECTIONS;
    t := Accepted(c, 7);
    assert t.conns == [Conn(4, false, 0), Conn(5, false, 0), Conn(6, false, 0), Conn(7, false, 0)];
  }

  lemma Enter(s: Server, evs: seq<Event>, c: Server) returns (d: Server)
    requires TwoPlaces(s) && After(s, evs) == Some(c)
    requires With(s, c, [], 0, 0, [Conn(4, false, 0), Conn(5, false, 0), Conn(6, false, 0), Conn(7, false, 0)])
    ensures After(s, evs + [Read(0, NewJobMsg(PLAIN))]) == Some(d)
    ensures With(s, d, [FIRST], 1, 0, [Conn(4, true, 0), Conn(5, false, 0), Conn(6, false, 0), Conn(7, false, 0)])
  {
    AfterCore(s, evs);
    SubmitAlone(c, 0, PLAIN);
    MaySubmit(c, 0, PLAIN);
    assert Enqueued(c.jobs, PLAIN) == FIRST;
    AfterNext(s, evs, c, Read(0, NewJobMsg(PLAIN)));
    d := Submitted(c, 0, [], FIRST);
    assert [] + [FIRST] == [FIRST];
    assert d.conns == [Conn(4, true, 0), Conn(5, false, 0), Conn(6, false, 0), Conn(7, false, 0)];
  }

  /** The first job runs. */
  lemma Start(s: Server, evs: seq<Event>, c: Server) returns (t: Server)
    requires TwoPlaces(s) && After(s, evs) == Some(c)
    requires With(s, c, [], 0, 0, [Conn(4, false, 0), Conn(5, false, 0), Conn(6, false, 0), Conn(7, false, 0)])
    ensures After(s, evs + [Read(0, NewJobMsg(PLAIN))] + [Launch(QUERY)]) == Some(t)
    ensures With(s, t, [FIRST.(state := Running)], 1, 1,
                 [Conn(4, true, 0), Conn(5, false, 0), Conn(6, false, 0), Conn(7, false, 0)])
  {
    var d := Enter(s, evs, c);
    AfterCore(s, evs + [Read(0, NewJobMsg(PLAIN))]);
    t := LaunchFirst(d);
    AfterNext(s, evs + [Read(0, NewJobMsg(PLAIN))], d, Launch(QUERY));
  }

  lemma LaunchFirst(d: Server) returns (t: Server)
    requires Core(d) && d.jobs.build.Cpu? && d.jobs.queue == [FIRST] && d.jobs.busy == 0
    ensures Step(d, Launch(QUERY)) == Some(t)
    ensures t == d.(jobs := d.jobs.(queue := [FIRST.(state := Running)], busy := 1, sent := t.jobs.sent))
  {
    assert d.jobs.queue[0 := FIRST] == d.jobs.queue && d.jobs.(queue := d.jobs.queue) == d.jobs;
    assert Scan(d.jobs, 0, QUERY) == (d.jobs, 0);
    var jobs := d.jobs.(busy := 1);
    LaunchTakes(d, QUERY, jobs, 0);
    t := Launched(d, jobs, 0);
    assert jobs.queue[0 := FIRST.(state := Running)] == [FIRST.(state := Running)];
  }

  /** The queue is full when the third job comes: its client is held. */
  lemma Fill(s: Server, evs: seq<Event>, c: Server) returns (t: Server)
    requires TwoPlaces(s) && After(s, evs) == Some(c)
    requires With(s, c, [FIRST.(state := Running)], 1, 1,
                  [Conn(4, true, 0), Conn(5, false, 0), Conn(6, false, 0), Conn(7, false, 0)])
    ensures After(s, evs + [Read(1, NewJobMsg(PLAIN))] + [Read(2, NewJobMsg(PATIENT))]) == Some(t)
    ensures With(s, t, [FIRST.(state := Running), SECOND, THIRD], 3, 1,
                 [Conn(4, true, 0), Conn(5, true, 1), Conn(6, true, 2), Conn(7, false, 0)])
  {
    AfterCore(s, evs);
    SubmitAlone(c, 1, PLAIN);
    MaySubmit(c, 1, PLAIN);
    assert Enqueued(c.jobs, PLAIN) == SECOND;
    AfterNext(s, evs, c, Read(1, NewJobMsg(PLAIN)));
    var d := Submitted(c, 1, c.jobs.queue, SECOND);
    assert d.jobs.queue == [FIRST.(state := Running), SECOND];
    AfterCore(s, evs + [Read(1, NewJobMsg(PLAIN))]);
    assert d.conns == [Conn(4, true, 0), Conn(5, true, 1), Conn(6, false, 0), Conn(7, false, 0)];
    t := Hold(s, evs + [Read(1, NewJobMsg(PLAIN))], d);
  }

  lemma Hold(s: Server, evs: seq<Event>, d: Server) returns (t: Server)
    requires TwoPlaces(s) && After(s, evs) == Some(d)
    requires With(s, d, [FIRST.(state := Running), SECOND], 2, 1,
                  [Conn(4, true, 0), Conn(5, true, 1), Conn(6, false, 0), Conn(7, false, 0)])
    ensures After(s, evs + [Read(2, NewJobMsg(PATIENT))]) == Some(t)
    ensures With(s, t, [FIRST.(state := Running), SECOND, THIRD], 3, 1,
                 [Conn(4, true, 0), Conn(5, true, 1), Conn(6, true, 2), Conn(7, false, 0)])
  {
    AfterCore(s, evs);
    SubmitHeld(d, 2, PATIENT);
    MaySubmit(d, 2, PATIENT);
    assert Enqueued(d.jobs, PATIENT) == THIRD;
    AfterNext(s, evs, d, Read(2, NewJobMsg(PATIENT)));
    t := HeldBack(d, 2, THIRD);
    assert t.jobs.queue == [FIRST.(state := Running), SECOND, THIRD];
    assert t.conns == [Conn(4, true, 0), Conn(5, true, 1), Conn(6, true, 2), Conn(7, false, 0)];
  }

  /** The client of the second job goes away. */
  lemma Leave(s: Server, evs: seq<Event>, c: Server) returns (t: Server)
    requires TwoPlaces(s) && After(s, evs) == Some(c)
    requires With(s, c, [FIRST.(state := Running), SECOND, THIRD], 3, 1,
                  [Conn(4, true, 0), Conn(5, true, 1), Conn(6, true, 2), Conn(7, false, 0)])
    ensures After(s, evs + [Read(1, EndOfStream)]) == Some(t)
    ensures With(s, t, [FIRST.(state := Running), THIRD], 3, 1, [Conn(4, true, 0), Conn(6, true, 2), Conn(7, false, 0)])
  {
    AfterCore(s, evs);
    EndPlain(c, 1, KILLED, 1);
    Closes(c, 1);
    AfterNext(s, evs, c, Read(1, EndOfStream));
    var d := Ended(c, 1, KILLED, 1);
    t := RemoveConnection(d, 1).value;
    assert RemoveAt(c.jobs.queue, 1) == [FIRST.(state := Running), THIRD];
    assert RemoveAt(d.conns, 1) == [Conn(4, true, 0), Conn(6, true, 2), Conn(7, false, 0)];
  }

  /** The first job ends. */
  lemma Finish(s: Server, evs: seq<Event>, c: Server) returns (t: Server)
    requires TwoPlaces(s) && After(s, evs) == Some(c)
    requires With(s, c, [FIRST.(state := Running), THIRD], 3, 1,
                  [Conn(4, true, 0), Conn(6, true, 2), Conn(7, false, 0)])
    ensures After(s, evs + [Read(0, EndJobMsg(DONE))]) == Some(t)
    ensures With(s, t, [THIRD], 3, 0, [Conn(4, false, 0), Conn(6, true, 2), Conn(7, false, 0)])
  {
    AfterCore(s, evs);
    EndPlain(c, 0, DONE, 0);
    assert c.jobs.queue[0].state.Running?;
    assert JobRuns(c.jobs, 0) == true;
    AfterNext(s, evs, c, Read(0, EndJobMsg(DONE)));
    t := Ended(c, 0, DONE, 0);
    assert RemoveAt(c.jobs.queue, 0) == [THIRD];
    assert t.conns == [Conn(4, false, 0), Conn(6, true, 2), Conn(7, false, 0)];
  }

  /** The fourth job, which depends on the held one, is queued. */
  lemma Depend(s: Server, evs: seq<Event>, c: Server) returns (t: Server)
    requires TwoPlaces(s) && After(s, evs) == Some(c)
    requires With(s, c, [THIRD], 3, 0, [Conn(4, false, 0), Conn(6, true, 2), Conn(7, false, 0)])
    ensures After(s, evs + [Read(2, NewJobMsg(DEPENDENT))]) == Some(t)
    ensures With(s, t, [THIRD.(notifyTo := [3]), FOURTH], 4, 0, [Conn(4, false, 0), Conn(6, true, 2), Conn(7, true, 3)])
  {
    AfterCore(s, evs);
    SubmitAfter(c, 2, DEPENDENT, 0);
    MaySubmit(c, 2, DEPENDENT);
    assert [] + [3] == [3];
    assert c.jobs.queue[0 := AddNotify(THIRD, 3)] == [THIRD.(notifyTo := [3])];
    assert Enqueued(c.jobs, DEPENDENT).(dependOn := [2]) == FOURTH;
    AfterNext(s, evs, c, Read(2, NewJobMsg(DEPENDENT)));
    t := Submitted(c, 2, [THIRD.(notifyTo := [3])], FOURTH);
    assert t.jobs.queue == [THIRD.(notifyTo := [3]), FOURTH];
    assert t.conns == [Conn(4, false, 0), Conn(6, true, 2), Conn(7, true, 3)];
  }

  lemma NotBlocked(s: Jobs)
    requires s.queue == [THIRD.(notifyTo := [3]), FOURTH]
    ensures !Blocked(s, FOURTH)
  {
    assert Find(s.queue, 2) == 0;
    assert !DependencyUnfinished(s, 2);
  }

  lemma ScanFourth(s: Jobs)
    requires s.queue == [THIRD.(notifyTo := [3]), FOURTH] && s.build.Cpu? && s.busy == 0 && s.maxSlots >= 1
    ensures NextRunJob(s, QUERY) == Some((s.(busy := 1), 1))
  {
    NotBlocked(s);
    assert s.queue[1 := FOURTH] == s.queue && s.(queue := s.queue) == s;
    assert Scan(s, 1, QUERY) == (s, 1);
    assert Scan(s, 0, QUERY) == (s, 1);
  }

  /** The job is launched. */
  lemma Overtake(c: Server)
    requires Core(c) && c.jobs.build.Cpu? && c.jobs.busy == 0
    requires c.jobs.queue == [THIRD.(notifyTo := [3]), FOURTH]
    requires c.conns == [Conn(4, false, 0), Conn(6, true, 2), Conn(7, true, 3)]
    ensures Step(c, Launch(QUERY)).Some?
    ensures Step(c, Launch(QUERY)).value.jobs.queue ==
              [THIRD.(notifyTo := [3], state := Queued), FOURTH.(state := Running)]
  {
    ScanFourth(c.jobs);
    StartFourth(c.(jobs := c.jobs.(busy := 1)));
  }

  lemma StartFourth(d: Server)
    requires d.jobs.queue == [THIRD.(notifyTo := [3]), FOURTH]
    requires d.conns == [Conn(4, false, 0), Conn(6, true, 2), Conn(7, true, 3)]
    ensures StartJob(d, 1).Some? && WakeAll(StartJob(d, 1).value).Some?
    ensures WakeAll(StartJob(d, 1).value).value.jobs.queue ==
              [THIRD.(notifyTo := [3], state := Queued), FOURTH.(state := Running)]
  {
    assert Find(d.jobs.queue, 3) == 1;
    assert d.conns[2] == Conn(7, true, 3) && d.conns[1].jobid == 2 && !d.conns[0].hasJob;
    assert ConnOf(d.conns, 3) == 2;
    var t := StartJob(d, 1).value;
    assert t.jobs.queue == [THIRD.(notifyTo := [3]), FOURTH.(state := Running)];
    WakeThird(t);
  }

  lemma WakeThird(t: Server)
    requires t.jobs.queue == [THIRD.(notifyTo := [3]), FOURTH.(state := Running)]
    requires t.conns == [Conn(4, false, 0), Conn(6, true, 2), Conn(7, true, 3)]
    ensures WakeAll(t).Some?
    ensures WakeAll(t).value.jobs.queue == [THIRD.(notifyTo := [3], state := Queued), FOURTH.(state := Running)]
  {
    assert FindHolding(t.jobs.queue) == 0 && ConnOf(t.conns, 2) == 1;
    var q := [THIRD.(notifyTo := [3], state := Queued), FOURTH.(state := Running)];
    assert t.jobs.queue[0 := Woken(t.jobs.queue[0])] == q;
    var u := Send(t.(jobs := t.jobs.(queue := q)), NewJobOk(6, 2));
    NobodyToWake(u);
  }

  const LEAD := CONNECTIONS + [Read(0, NewJobMsg(PLAIN))] + [Launch(QUERY)] + [Read(1, NewJobMsg(PLAIN))]
                + [Read(2, NewJobMsg(PATIENT))]
  const EVENTS := LEAD + [Read(1, EndOfStream)] + [Read(0, EndJobMsg(DONE))] + [Read(2, NewJobMsg(DEPENDENT))]
                  + [Launch(QUERY)]

  /** All clients keep to the protocol, and in the end a job runs while the one it depends on waits. */
  lemma HeldDependencyOvertaken(s: Server)
    requires TwoPlaces(s)
    ensures After(s, EVENTS).Some?
    ensures var q := After(s, EVENTS).value.jobs.queue;
            |q| == 2 && q[1].state.Running? && q[1].dependOn == [q[0].id] && q[0].state.Queued?
  {
    var a := Connect(s);
    var b := Start(s, CONNECTIONS, a);
    var c := Fill(s, CONNECTIONS + [Read(0, NewJobMsg(PLAIN))] + [Launch(QUERY)], b);
    var d := Leave(s, LEAD, c);
    var e := Finish(s, LEAD + [Read(1, EndOfStream)], d);
    var evs := LEAD + [Read(1, EndOfStream)] + [Read(0, EndJobMsg(DONE))];
    var f := Depend(s, evs, e);
    AfterCore(s, evs + [Read(2, NewJobMsg(DEPENDENT))]);
    Overtake(f);
    AfterNext(s, evs + [Read(2, NewJobMsg(DEPENDENT))], f, Launch(QUERY));
  }
}
