/** The life of a job: it enters under the next id, is held, queued or allocating, runs, and
    leaves the run queue for good. */
module LifeCycle {
  import opened JobTypes
  import opened JobSpec
  import opened JobInvariant
  import opened ServerSpec
  import opened ServerInvariant
  import opened Protocol
  import opened ProtocolRuns
  import Ops = JobOperations

  /** How far a job has come; leaving the queue is the last stage. */
  function Stage(st: Option<JobState>): nat {
    match st
    case None => 3
    case Some(HoldingClient) => 0
    case Some(Queued) => 1
    case Some(Allocating) => 1
    case Some(_) => 2
  }

  /** Jobs only move forward, and no id already given out reappears. */
  ghost predicate Forward(a: Jobs, b: Jobs) {
    && a.nextId <= b.nextId
    && forall id :: id < a.nextId ==> Stage(StateOf(a.queue, id)) <= Stage(StateOf(b.queue, id))
  }

  lemma EndForward(s: Server, i: nat, r: Result)
    requires Core(s) && i < |s.conns| && s.conns[i].hasJob && EndJob(s, i, r).Some?
    ensures Forward(s.jobs, EndJob(s, i, r).value.jobs)
  {
    EndStates(s.jobs, r, s.conns[i].jobid);
  }

  lemma DisappearForward(s: Server, i: nat)
    requires Core(s) && i < |s.conns| && Disappear(s, i).Some?
    ensures Forward(s.jobs, Disappear(s, i).value.jobs)
  {
    if s.conns[i].hasJob { EndForward(s, i, KILLED); }
  }

  lemma EnqueueForward(s: Server, i: nat, r: Request)
    requires Core(s) && i < |s.conns| && !s.conns[i].hasJob && EnqueueFor(s, i, r).Some?
    ensures Forward(s.jobs, EnqueueFor(s, i, r).value.jobs)
  {
    var id := s.jobs.nextId;
    NewJobStates(s.jobs, r);
    Ops.NewJobOk(s.jobs, r);
    var jobs := NewJob(s.jobs, r).value;
    HeldSet(s.conns, i, Conn(s.conns[i].socket, true, id));
    var k := Find(jobs.queue, id);
    if k >= 0 && jobs.queue[k].state.HoldingClient? && !r.waitEnqueuing {
      var s1 := Send(s.(jobs := jobs, conns := s.conns[i := Conn(s.conns[i].socket, true, id)]),
                     NewJobNok(s.conns[i].socket, id));
      DisappearForward(s1, i);
    }
  }

  lemma OrderForward(s: Jobs, t: Jobs)
    requires JobsOk(s) && JobsOk(t) && t.nextId == s.nextId && Ids(t.queue) == Ids(s.queue)
    requires forall i :: 0 <= i < |t.queue| ==> t.queue[i] in s.queue
    ensures Forward(s, t)
  {
    forall x ensures StateOf(t.queue, x) == StateOf(s.queue, x) { StatePermuted(s.queue, t.queue, x); }
  }

  lemma {:induction false} WakeForward(s: Server)
    requires Core(s)
    ensures WakeAll(s).Some? && Forward(s.jobs, WakeAll(s).value.jobs)
    decreases Holding(s.jobs.queue)
  {
    WakeAllCore(s);
    var k := FindHolding(s.jobs.queue);
    if k < 0 {
    } else {
      var j := s.jobs.queue[k];
      HoldingUpdate(s.jobs.queue, k, Woken(j));
      Ops.ChangeStateOk(s.jobs, k, Woken(j));
      var t := Send(s.(jobs := WakeHoldClient(s.jobs).0), NewJobOk(s.conns[ConnOf(s.conns, j.id)].socket, j.id));
      assert Forward(s.jobs, t.jobs) by {
        forall x ensures Stage(StateOf(s.jobs.queue, x)) <= Stage(StateOf(t.jobs.queue, x)) {
          StateUpdate(s.jobs.queue, k, Woken(j), x);
          FindAt(s.jobs.queue, k);
        }
      }
      WakeForward(t);
    }
  }

  lemma LaunchForward(s: Server, query: GpuQuery)
    requires Core(s) && LaunchOne(s, query).Some?
    ensures Forward(s.jobs, LaunchOne(s, query).value.jobs)
  {
    Ops.NextRunJobOk(s.jobs, query);
    var (jobs, k) := NextRunJob(s.jobs, query).value;
    forall x ensures StateOf(jobs.queue, x) == StateOf(s.jobs.queue, x) { StateSame(s.jobs.queue, jobs.queue, x); }
    if k >= 0 {
      StartJobCore(s, jobs, k);
      var t := StartJob(s.(jobs := jobs), k).value;
      FindAt(jobs.queue, k);
      forall x ensures Stage(StateOf(jobs.queue, x)) <= Stage(StateOf(t.jobs.queue, x)) {
        StateUpdate(jobs.queue, k, jobs.queue[k].(state := Running), x);
      }
      WakeForward(t);
    }
  }

  lemma RemoveForward(s: Jobs, socket: int, id: int)
    requires JobsOk(s) && RemoveJob(s, socket, id).Some?
    ensures Forward(s, RemoveJob(s, socket, id).value.0)
  {
    RemoveStates(s, socket, id);
  }

  lemma ReadForward(s: Server, i: nat, m: Msg)
    requires Core(s) && i < |s.conns| && ClientOk(s, Read(i, m)) && ReadMsg(s, i, m).Some?
    ensures Forward(s.jobs, ReadMsg(s, i, m).value.jobs)
  {
    var socket := s.conns[i].socket;
    var t := ReadMsg(s, i, m).value;
    if Harmless(m) {
      HarmlessFrame(s, i, m);
    } else if m.ClosingQuery? || m.Info? {
      ClosingFrame(s, i, m);
    } else {
      match m
      case NewJobMsg(r) => EnqueueForward(s, i, r);
      case EndJobMsg(r) => EndForward(s, i, r);
      case RemoveJobMsg(id) => RemoveForward(s.jobs, socket, id);
      case UrgentMsg(id) =>
        Ops.MoveUrgentOk(s.jobs, socket, id);
        OrderForward(s.jobs, t.jobs);
      case SwapJobsMsg(a, b) =>
        Ops.SwapJobsOk(s.jobs, socket, a, b);
        OrderForward(s.jobs, t.jobs);
      case Unknown => DisappearForward(s, i);
      case EndOfStream => DisappearForward(s, i);
    }
  }

  lemma StepForward(s: Server, e: Event)
    requires Core(s) && ClientOk(s, e) && Step(s, e).Some?
    ensures Forward(s.jobs, Step(s, e).value.jobs)
  {
    match e
    case Accept(_) =>
    case Launch(query) => LaunchForward(s, query);
    case Read(i, m) => if i < |s.conns| { ReadForward(s, i, m); }
  }

  lemma ForwardTransitive(a: Jobs, b: Jobs, c: Jobs)
    requires Forward(a, b) && Forward(b, c)
    ensures Forward(a, c)
  {
  }

  lemma RunStepForward(states: seq<Server>, evs: seq<Event>, n: nat)
    requires IsRun(states, evs) && n < |evs|
    ensures Forward(states[n].jobs, states[n + 1].jobs)
  {
    RunCore(states, evs, n);
    assert ClientOk(states[n], evs[n]) && Step(states[n], evs[n]) == Some(states[n + 1]);
    StepForward(states[n], evs[n]);
  }

  lemma RunOneMore(states: seq<Server>, evs: seq<Event>, a: Jobs, m: nat)
    requires IsRun(states, evs) && m < |evs| && Forward(a, states[m].jobs)
    ensures Forward(a, states[m + 1].jobs)
  {
    RunStepForward(states, evs, m);
    ForwardTransitive(a, states[m].jobs, states[m + 1].jobs);
  }

  lemma ForwardSelf(a: Jobs)
    ensures Forward(a, a)
  {
  }

  /** Over any stretch of any run, a job never goes back: once running it runs until it leaves,
      and once it has left it does not return. */
  lemma {:induction false} RunForward(states: seq<Server>, evs: seq<Event>, n: nat, m: nat)
    requires IsRun(states, evs) && n <= m < |states|
    ensures Forward(states[n].jobs, states[m].jobs)
  {
    if n < m {
      RunForward(states, evs, n, m - 1);
      RunOneMore(states, evs, states[n].jobs, m - 1);
    } else {
      ForwardSelf(states[n].jobs);
    }
  }

  /** In particular a running job is never queued, allocated or held again. */
  lemma RunNeverAgain(states: seq<Server>, evs: seq<Event>, n: nat, m: nat, id: int)
    requires IsRun(states, evs) && n <= m < |states|
    requires StateOf(states[n].jobs.queue, id) == Some(Running)
    ensures StateOf(states[m].jobs.queue, id) == None || StateOf(states[m].jobs.queue, id) == Some(Running)
  {
    RunCore(states, evs, n);
    RunCore(states, evs, m);
    assert LiveJob(states[n].jobs.queue[Find(states[n].jobs.queue, id)], states[n].jobs.nextId);
    RunForward(states, evs, n, m);
    NoDoneState(states[m].jobs, id);
  }

  lemma NoDoneState(s: Jobs, id: int)
    requires JobsOk(s)
    ensures StateOf(s.queue, id).Some? ==> !IsDone(StateOf(s.queue, id).value)
  {
    var k := Find(s.queue, id);
    if k >= 0 { assert LiveJob(s.queue[k], s.nextId); }
  }
}
