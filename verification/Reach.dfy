/** Runs written down event by event, to show that a state can be reached. */
module Reach {
  import opened JobTypes
  import opened JobSpec
  import opened JobInvariant
  import opened ServerSpec
  import opened ServerInvariant
  import Ops = JobOperations

  /** The state after these events, if the clients keep to the protocol and the server lives that long. */
  function After(s: Server, evs: seq<Event>): Option<Server>
    decreases |evs|
  {
    if evs == [] then Some(s)
    else
      var t :- After(s, evs[..|evs| - 1]);
      if ClientOk(t, evs[|evs| - 1]) then Step(t, evs[|evs| - 1]) else None
  }

  lemma AfterNext(s: Server, evs: seq<Event>, t: Server, e: Event)
    requires After(s, evs) == Some(t) && ClientOk(t, e)
    ensures After(s, evs + [e]) == Step(t, e)
  {
    assert (evs + [e])[..|evs|] == evs;
  }

  /** All the states on the way. */
  function States(s: Server, evs: seq<Event>): seq<Server>
    requires After(s, evs).Some?
    decreases |evs|
  {
    (if evs == [] then [] else States(s, evs[..|evs| - 1])) + [After(s, evs).value]
  }

  lemma {:induction false} StatesAre(s: Server, evs: seq<Event>)
    requires After(s, evs).Some?
    ensures var states := States(s, evs);
            && |states| == |evs| + 1 && states[0] == s && states[|evs|] == After(s, evs).value
            && forall i :: 0 <= i < |evs| ==>
                 ClientOk(states[i], evs[i]) == true && Step(states[i], evs[i]) == Some(states[i + 1])
    decreases |evs|
  {
    if evs == [] {
    } else {
      var n := |evs| - 1;
      StatesAre(s, evs[..n]);
      var states, before := States(s, evs), States(s, evs[..n]);
      assert states[..n + 1] == before;
      forall i | 0 <= i < |evs|
        ensures ClientOk(states[i], evs[i]) == true && Step(states[i], evs[i]) == Some(states[i + 1])
      {
        assert states[i] == before[i];
        if i < n { assert states[i + 1] == before[i + 1] && evs[..n][i] == evs[i]; }
      }
    }
  }

  lemma {:induction false} StateAt(s: Server, evs: seq<Event>, i: nat)
    requires After(s, evs).Some? && i <= |evs|
    ensures After(s, evs[..i]).Some? && |States(s, evs)| == |evs| + 1
    ensures States(s, evs)[i] == After(s, evs[..i]).value
    decreases |evs|
  {
    StatesAre(s, evs);
    if i == |evs| {
      assert evs[..i] == evs;
    } else {
      assert evs[..|evs| - 1][..i] == evs[..i];
      StateAt(s, evs[..|evs| - 1], i);
    }
  }

  /** From an idle server they are a run. */
  lemma AfterIsRun(s: Server, evs: seq<Event>)
    requires Initial(s) && After(s, evs).Some?
    ensures IsRun(States(s, evs), evs) && States(s, evs)[|evs|] == After(s, evs).value
  {
    StatesAre(s, evs);
  }

  lemma AfterCore(s: Server, evs: seq<Event>)
    requires Initial(s) && After(s, evs).Some?
    ensures Core(After(s, evs).value)
  {
    AfterIsRun(s, evs);
    RunCore(States(s, evs), evs, |evs|);
  }

  // ---- what single events lead to ----

  lemma Closes(t: Server, i: nat)
    requires i < |t.conns|
    ensures ClientOk(t, Read(i, EndOfStream)) && Step(t, Read(i, EndOfStream)) == Disappear(t, i)
  {
  }

  function Accepted(t: Server, socket: int): Server { t.(conns := t.conns + [Conn(socket, false, 0)]) }

  lemma Connects(t: Server, socket: int)
    requires |t.conns| < t.maxConns && forall i :: 0 <= i < |t.conns| ==> t.conns[i].socket != socket
    ensures ClientOk(t, Accept(socket)) && Step(t, Accept(socket)) == Some(Accepted(t, socket))
  {
  }

  /** The first connection to an idle server. */
  lemma FirstConnects(s: Server, socket: int)
    requires s.conns == [] && s.maxConns >= 1
    ensures After(s, [Accept(socket)]) == Some(Accepted(s, socket))
  {
    assert [Accept(socket)][..0] == [];
    assert After(s, []) == Some(s);
    Connects(s, socket);
  }

  /** A submission that is accepted at once; the jobs before it are as in `q`, and it is `me`. */
  function Submitted(t: Server, i: nat, q: seq<Job>, me: Job): Server
    requires i < |t.conns|
  {
    t.(jobs := t.jobs.(queue := q + [me], nextId := t.jobs.nextId + 1,
                       sent := t.jobs.sent + [NewJobOk(t.conns[i].socket, t.jobs.nextId)]),
       conns := t.conns[i := Conn(t.conns[i].socket, true, t.jobs.nextId)])
  }

  lemma MaySubmit(t: Server, i: nat, r: Request)
    requires i < |t.conns| && !t.conns[i].hasJob && t.jobs.waiters == []
    ensures ClientOk(t, Read(i, NewJobMsg(r)))
  {
  }

  /** A submission whose client is held. */
  function HeldBack(t: Server, i: nat, me: Job): Server
    requires i < |t.conns|
  {
    t.(jobs := t.jobs.(queue := t.jobs.queue + [me], nextId := t.jobs.nextId + 1),
       conns := t.conns[i := Conn(t.conns[i].socket, true, t.jobs.nextId)])
  }

  lemma SubmitHeld(t: Server, i: nat, r: Request)
    requires Core(t) && i < |t.conns| && |t.jobs.queue| + 1 >= t.jobs.maxJobs && r.dependOn == [] && r.waitEnqueuing
    ensures Step(t, Read(i, NewJobMsg(r))) == Some(HeldBack(t, i, Enqueued(t.jobs, r)))
  {
    Ops.NewJobOk(t.jobs, r);
    FindAt(NewJob(t.jobs, r).value.queue, |t.jobs.queue|);
  }

  /** The end of a job nobody depends on, waits for or wants to keep, on a CPU build. */
  function Ended(t: Server, i: nat, r: Result, k: nat): Server
    requires i < |t.conns| && k < |t.jobs.queue|
  {
    t.(jobs := t.jobs.(queue := RemoveAt(t.jobs.queue, k),
                       busy := t.jobs.busy - if t.jobs.queue[k].state.Running? then t.jobs.queue[k].numSlots else 0,
                       lastFinishedId := t.jobs.queue[k].id, lastErrorlevel := r.errorlevel),
       conns := t.conns[i := t.conns[i].(hasJob := false)])
  }

  lemma EndPlain(t: Server, i: nat, r: Result, k: nat)
    requires Core(t) && t.jobs.build.Cpu? && t.jobs.busy > 0 && t.jobs.waiters == []
    requires i < |t.conns| && t.conns[i].hasJob && k < |t.jobs.queue| && t.jobs.queue[k].id == t.conns[i].jobid
    requires t.jobs.queue[k].notifyTo == [] && !t.jobs.queue[k].keep
    ensures EndJob(t, i, r) == Some(Ended(t, i, r, k))
  {
    var s := t.jobs;
    FindAt(s.queue, k);
    var u := RecordEnd(s, k, r);
    assert NotifyAll(u, [], r.errorlevel) == u;
    assert RemoveAt(u.queue, k) == RemoveAt(s.queue, k);
    var v := u.(queue := RemoveAt(s.queue, k));
    assert Retire(u, k) == Some(v);
    assert CheckNotify(v, s.queue[k].id) == Some(v);
  }

  lemma SubmitAlone(t: Server, i: nat, r: Request)
    requires Core(t) && i < |t.conns| && |t.jobs.queue| + 1 < t.jobs.maxJobs && r.dependOn == []
    ensures Step(t, Read(i, NewJobMsg(r))) == Some(Submitted(t, i, t.jobs.queue, Enqueued(t.jobs, r)))
  {
    Ops.NewJobOk(t.jobs, r);
    FindAt(NewJob(t.jobs, r).value.queue, |t.jobs.queue|);
  }

  lemma DependOnOne(s: Jobs, r: Request, k: nat)
    requires JobsOk(s) && k < |s.queue| && r.dependOn == [s.queue[k].id]
    ensures var me := Enqueued(s, r);
            NewJob(s, r) ==
              Some(s.(queue := s.queue[k := AddNotify(s.queue[k], me.id)] + [me.(dependOn := r.dependOn)],
                      nextId := s.nextId + 1))
  {
    var me := Enqueued(s, r);
    assert LiveJob(s.queue[k], s.nextId);
    FindAt(s.queue, k);
    assert r.dependOn[..0] == [] && [] + [s.queue[k].id] == r.dependOn;
    assert AddDependencies(s, me, []) == Some((s, me));
  }

  /** A submission that depends on the job at position `k`. */
  lemma SubmitAfter(t: Server, i: nat, r: Request, k: nat)
    requires Core(t) && i < |t.conns| && |t.jobs.queue| + 1 < t.jobs.maxJobs
    requires k < |t.jobs.queue| && r.dependOn == [t.jobs.queue[k].id]
    ensures var me := Enqueued(t.jobs, r);
            Step(t, Read(i, NewJobMsg(r))) ==
              Some(Submitted(t, i, t.jobs.queue[k := AddNotify(t.jobs.queue[k], me.id)], me.(dependOn := r.dependOn)))
  {
    DependOnOne(t.jobs, r, k);
    StepAccepts(t, i, r);
  }

  lemma StepAccepts(t: Server, i: nat, r: Request)
    requires Core(t) && i < |t.conns| && |t.jobs.queue| + 1 < t.jobs.maxJobs && NewJob(t.jobs, r).Some?
    ensures var jobs := NewJob(t.jobs, r).value;
            Step(t, Read(i, NewJobMsg(r))) ==
              Some(t.(jobs := jobs.(sent := jobs.sent + [NewJobOk(t.conns[i].socket, t.jobs.nextId)]),
                      conns := t.conns[i := Conn(t.conns[i].socket, true, t.jobs.nextId)]))
  {
    Ops.NewJobOk(t.jobs, r);
    FindAt(NewJob(t.jobs, r).value.queue, |t.jobs.queue|);
  }

  /** A launch that chose the job at position `k`, while no client is held. */
  function Launched(t: Server, jobs: Jobs, k: nat): Server
    requires k < |jobs.queue| && ConnOf(t.conns, jobs.queue[k].id) >= 0
  {
    var j := jobs.queue[k];
    t.(jobs := jobs.(queue := jobs.queue[k := j.(state := Running)],
                     sent := jobs.sent + [RunJob(t.conns[ConnOf(t.conns, j.id)].socket, j.id,
                                                 j.dependencyErrorlevel, j.gpuIds)]))
  }

  lemma LaunchTakes(t: Server, query: GpuQuery, jobs: Jobs, k: nat)
    requires Core(t) && NextRunJob(t.jobs, query) == Some((jobs, k)) && k < |jobs.queue|
    requires forall m :: 0 <= m < |jobs.queue| ==> !jobs.queue[m].state.HoldingClient?
    ensures ConnOf(t.conns, jobs.queue[k].id) >= 0
    ensures Step(t, Launch(query)) == Some(Launched(t, jobs, k))
  {
    Ops.NextRunJobOk(t.jobs, query);
    StartJobCore(t, jobs, k);
    StartIs(t, jobs, k);
    NobodyToWake(Launched(t, jobs, k));
    LaunchIs(t, query, jobs, k, Launched(t, jobs, k));
  }

  lemma LaunchIs(t: Server, query: GpuQuery, jobs: Jobs, k: nat, u: Server)
    requires NextRunJob(t.jobs, query) == Some((jobs, k)) && k < |jobs.queue|
    requires StartJob(t.(jobs := jobs), k) == Some(u) && WakeAll(u) == Some(u)
    ensures Step(t, Launch(query)) == Some(u)
  {
  }

  lemma NobodyToWake(u: Server)
    requires forall m :: 0 <= m < |u.jobs.queue| ==> !u.jobs.queue[m].state.HoldingClient?
    ensures WakeAll(u) == Some(u)
  {
    assert FindHolding(u.jobs.queue) < 0;
  }

  lemma StartIs(t: Server, jobs: Jobs, k: nat)
    requires k < |jobs.queue| && Distinct(jobs.queue) && StartJob(t.(jobs := jobs), k).Some?
    ensures ConnOf(t.conns, jobs.queue[k].id) >= 0
    ensures StartJob(t.(jobs := jobs), k) == Some(Launched(t, jobs, k))
  {
    FindAt(jobs.queue, k);
  }
}
