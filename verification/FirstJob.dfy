/** Job 0 is the first job of the server. Nothing gets in front of the head of the queue, so it
    stays there until it ends, and no request can remove it while it is queued. */
module FirstJob {
  import opened JobTypes
  import opened JobSpec
  import opened JobInvariant
  import opened ServerSpec
  import opened ServerInvariant
  import opened Waiting
  import opened ProtocolRuns
  import Ops = JobOperations

  ghost predicate ZeroFirst(q: seq<Job>) { forall i :: 0 < i < |q| ==> q[i].id != 0 }

  /** The queues name the same jobs in the same order. */
  ghost predicate SameOrder(q: seq<Job>, r: seq<Job>) { |r| == |q| && forall i :: 0 <= i < |q| ==> r[i].id == q[i].id }

  lemma ZeroRemoved(q: seq<Job>, u: seq<Job>, k: nat)
    requires ZeroFirst(q) && SameOrder(q, u) && k < |u|
    ensures ZeroFirst(RemoveAt(u, k))
  {
    RemoveAtElements(u, k);
  }

  lemma EndZero(s: Server, i: nat, r: Result)
    requires Core(s) && ZeroFirst(s.jobs.queue) && i < |s.conns| && s.conns[i].hasJob && EndJob(s, i, r).Some?
    ensures ZeroFirst(EndJob(s, i, r).value.jobs.queue)
  {
    HolderHasJob(s, i);
    var k := Find(s.jobs.queue, s.conns[i].jobid);
    EndUnfold(s.jobs, r, s.conns[i].jobid);
    var s1 := RecordEnd(FreeGpus(s.jobs, s.jobs.queue[k]).value, k, r);
    NotifyAllSame(s1, s.jobs.queue[k].notifyTo, r.errorlevel);
    ZeroRemoved(s.jobs.queue, AfterEnd(s.jobs, k, r).queue, k);
  }

  lemma DisappearZero(s: Server, i: nat)
    requires Core(s) && ZeroFirst(s.jobs.queue) && i < |s.conns| && Disappear(s, i).Some?
    ensures ZeroFirst(Disappear(s, i).value.jobs.queue)
  {
    if s.conns[i].hasJob { EndZero(s, i, KILLED); }
  }

  lemma EnqueueZero(s: Server, i: nat, r: Request)
    requires Core(s) && ZeroFirst(s.jobs.queue) && i < |s.conns| && !s.conns[i].hasJob && EnqueueFor(s, i, r).Some?
    ensures ZeroFirst(EnqueueFor(s, i, r).value.jobs.queue)
  {
    var id := s.jobs.nextId;
    var c := Conn(s.conns[i].socket, true, id);
    Ops.NewJobOk(s.jobs, r);
    var jobs := NewJob(s.jobs, r).value;
    GrownZero(s.jobs, r);
    HeldSet(s.conns, i, c);
    var k := Find(jobs.queue, id);
    if k >= 0 && jobs.queue[k].state.HoldingClient? && !r.waitEnqueuing {
      RefusedZero(s.(jobs := jobs, conns := s.conns[i := c]), i, NewJobNok(c.socket, id));
    }
  }

  lemma RefusedZero(s: Server, i: nat, m: Sent)
    requires Core(s) && ZeroFirst(s.jobs.queue) && i < |s.conns| && Disappear(Send(s, m), i).Some?
    ensures ZeroFirst(Disappear(Send(s, m), i).value.jobs.queue)
  {
    DisappearZero(Send(s, m), i);
  }

  lemma GrownZero(s: Jobs, r: Request)
    requires JobsOk(s) && ZeroFirst(s.queue) && NewJob(s, r).Some?
    ensures ZeroFirst(NewJob(s, r).value.queue)
  {
    Ops.NewJobOk(s, r);
    var q := NewJob(s, r).value.queue;
    forall m | 0 < m < |q| ensures q[m].id != 0 {
      assert LiveJob(s.queue[0], s.nextId);
      if m < |s.queue| {
        assert q[..|s.queue|][m] == q[m];
        assert SameJob(s.queue[m], q[m]);
      }
    }
  }

  lemma RemoveZero(s: Jobs, socket: int, id: int)
    requires JobsOk(s) && ZeroFirst(s.queue) && RemoveJob(s, socket, id).Some?
    ensures ZeroFirst(RemoveJob(s, socket, id).value.0.queue)
  {
    match Locate(s, id)
    case Nowhere =>
    case InQueue(k) =>
      if !(k == 0 || s.queue[k].state.Running?) {
        var s1 := s.(queue := s.queue[k := Dropped(s.queue[k])], lastErrorlevel := -1);
        NotifyAllSame(s1, s.queue[k].notifyTo, -1);
        ZeroRemoved(s.queue, NotifyAll(s1, s.queue[k].notifyTo, -1).queue, k);
      }
    case InFinished(k) =>
      var s1 := s.(finished := s.finished[k := Dropped(s.finished[k])], lastErrorlevel := -1);
      NotifyAllSame(s1, s.finished[k].notifyTo, -1);
  }

  lemma OrderZero(s: Server, i: nat, m: Msg)
    requires JobsOk(s.jobs) && ZeroFirst(s.jobs.queue) && i < |s.conns| && (m.UrgentMsg? || m.SwapJobsMsg?)
    requires ReadMsg(s, i, m).Some?
    ensures ZeroFirst(ReadMsg(s, i, m).value.jobs.queue)
  {
  }

  lemma ReadZero(s: Server, i: nat, m: Msg)
    requires Core(s) && ZeroFirst(s.jobs.queue) && i < |s.conns| && ClientOk(s, Read(i, m)) && ReadMsg(s, i, m).Some?
    ensures ZeroFirst(ReadMsg(s, i, m).value.jobs.queue)
  {
    if Harmless(m) {
      HarmlessFrame(s, i, m);
    } else if m.ClosingQuery? || m.Info? {
      ClosingFrame(s, i, m);
    } else if m.UrgentMsg? || m.SwapJobsMsg? {
      OrderZero(s, i, m);
    } else {
      match m
      case NewJobMsg(r) => EnqueueZero(s, i, r);
      case EndJobMsg(r) => EndZero(s, i, r);
      case RemoveJobMsg(id) => RemoveZero(s.jobs, s.conns[i].socket, id);
      case Unknown => DisappearZero(s, i);
      case EndOfStream => DisappearZero(s, i);
    }
  }

  lemma {:induction false} WakeOrder(s: Server)
    requires WakeAll(s).Some?
    ensures SameOrder(s.jobs.queue, WakeAll(s).value.jobs.queue)
    decreases Holding(s.jobs.queue)
  {
    var k := FindHolding(s.jobs.queue);
    if k < 0 {
    } else {
      var j := s.jobs.queue[k];
      HoldingUpdate(s.jobs.queue, k, Woken(j));
      WakeOrder(Send(s.(jobs := WakeHoldClient(s.jobs).0), NewJobOk(s.conns[ConnOf(s.conns, j.id)].socket, j.id)));
    }
  }

  lemma LaunchOrder(s: Server, query: GpuQuery)
    requires LaunchOne(s, query).Some?
    ensures SameOrder(s.jobs.queue, LaunchOne(s, query).value.jobs.queue)
  {
    var (jobs, k) := NextRunJob(s.jobs, query).value;
    ScanSame(s.jobs, 0, query);
    if k >= 0 { WakeOrder(StartJob(s.(jobs := jobs), k).value); }
  }

  lemma StepZero(s: Server, e: Event)
    requires Core(s) && ZeroFirst(s.jobs.queue) && ClientOk(s, e) && Step(s, e).Some?
    ensures ZeroFirst(Step(s, e).value.jobs.queue)
  {
    match e
    case Accept(_) =>
    case Launch(query) => LaunchOrder(s, query);
    case Read(i, m) => if i < |s.conns| { ReadZero(s, i, m); }
  }

  /** At every point of every run job 0, while it is queued, is the head of the queue. */
  lemma {:induction false} RunZeroFirst(states: seq<Server>, evs: seq<Event>, n: nat)
    requires IsRun(states, evs) && n < |states|
    ensures ZeroFirst(states[n].jobs.queue)
  {
    if n == 0 {
    } else {
      RunZeroFirst(states, evs, n - 1);
      RunCore(states, evs, n - 1);
      assert ClientOk(states[n - 1], evs[n - 1]) && Step(states[n - 1], evs[n - 1]) == Some(states[n - 1 + 1]);
      StepZero(states[n - 1], evs[n - 1]);
    }
  }
}
