/** Plain use of the queue runs jobs in the order they were submitted. */
module Fifo {
  import opened JobTypes
  import opened JobSpec
  import opened JobInvariant
  import opened ServerSpec
  import opened ServerInvariant
  import opened Protocol
  import opened ProtocolRuns
  import opened Scheduling
  import opened Waiting
  import Ops = JobOperations

  /** Plain use: one-slot jobs without dependencies, never held, and nobody reorders the queue. */
  predicate Plain(s: Server, e: Event) {
    && s.jobs.build.Cpu?
    && (e.Read? ==>
          && !e.msg.UrgentMsg? && !e.msg.SwapJobsMsg?
          && (e.msg.NewJobMsg? ==>
                e.msg.request.dependOn == [] && e.msg.request.numSlots == 1 && |s.jobs.queue| + 1 < s.jobs.maxJobs))
  }

  ghost predicate Sorted(q: seq<Job>) { forall i, j :: 0 <= i < j < |q| ==> q[i].id < q[j].id }

  ghost predicate PlainJobs(q: seq<Job>) {
    forall i :: 0 <= i < |q| ==> q[i].numSlots == 1 && q[i].dependOn == [] && !q[i].state.HoldingClient?
  }

  /** Jobs were launched in increasing order of their ids. */
  ghost predicate LaunchOrder(sent: seq<Sent>) {
    forall a, b :: 0 <= a < b < |sent| && sent[a].RunJob? && sent[b].RunJob? ==> sent[a].id < sent[b].id
  }

  /** Every launched job is older than every waiting one. */
  ghost predicate LaunchedFirst(sent: seq<Sent>, q: seq<Job>) {
    forall a, i :: 0 <= a < |sent| && sent[a].RunJob? && 0 <= i < |q| && IsRunnable(q[i]) ==> sent[a].id < q[i].id
  }

  /** Launched ids have been given out already. */
  ghost predicate LaunchedKnown(s: Jobs) {
    forall a :: 0 <= a < |s.sent| && s.sent[a].RunJob? ==> s.sent[a].id < s.nextId
  }

  ghost predicate FifoOk(s: Jobs) {
    Sorted(s.queue) && PlainJobs(s.queue) && LaunchOrder(s.sent) && LaunchedFirst(s.sent, s.queue) && LaunchedKnown(s)
  }

  ghost predicate Stems(q: seq<Job>, j: Job) { exists m :: 0 <= m < |q| && SameJob(q[m], j) }

  /** Jobs leave, nothing is launched, nothing reordered. */
  lemma FifoShrinks(s: Jobs, t: Jobs)
    requires FifoOk(s) && Quiet(s.sent, t.sent) && t.nextId == s.nextId
    requires Sorted(t.queue) && PlainJobs(t.queue)
    requires forall i :: 0 <= i < |t.queue| ==> Stems(s.queue, t.queue[i])
    ensures FifoOk(t)
  {
    forall a | 0 <= a < |t.sent| && t.sent[a].RunJob? ensures a < |s.sent| && t.sent[a] == s.sent[a] {
      assert t.sent[..|s.sent|] == s.sent;
    }
  }

  lemma RemovedFifo(s: Jobs, q: seq<Job>, k: nat, t: Jobs)
    requires FifoOk(s) && Quiet(s.sent, t.sent) && t.nextId == s.nextId
    requires k < |s.queue| && |q| == |s.queue| && t.queue == RemoveAt(q, k)
    requires forall i :: 0 <= i < |q| && i != k ==> SameJob(s.queue[i], q[i])
    ensures FifoOk(t)
  {
    RemoveAtElements(q, k);
    forall i | 0 <= i < |t.queue| ensures Stems(s.queue, t.queue[i]) {
      assert SameJob(s.queue[if i < k then i else i + 1], t.queue[i]);
    }
    FifoShrinks(s, t);
  }

  lemma SameFifo(s: Jobs, t: Jobs)
    requires FifoOk(s) && Quiet(s.sent, t.sent) && t.nextId == s.nextId && SameJobs(s.queue, t.queue)
    ensures FifoOk(t)
  {
    forall i | 0 <= i < |t.queue| ensures Stems(s.queue, t.queue[i]) { assert SameJob(s.queue[i], t.queue[i]); }
    FifoShrinks(s, t);
  }

  lemma EndFifo(s: Server, i: nat, r: Result)
    requires Core(s) && FifoOk(s.jobs) && i < |s.conns| && s.conns[i].hasJob && EndJob(s, i, r).Some?
    ensures FifoOk(EndJob(s, i, r).value.jobs)
  {
    HolderHasJob(s, i);
    var id := s.conns[i].jobid;
    var k := Find(s.jobs.queue, id);
    EndUnfold(s.jobs, r, id);
    var s1 := FreeGpus(s.jobs, s.jobs.queue[k]).value;
    NotifyAllSame(RecordEnd(s1, k, r), s.jobs.queue[k].notifyTo, r.errorlevel);
    EndStates(s.jobs, r, id);
    RemovedFifo(s.jobs, AfterEnd(s.jobs, k, r).queue, k, EndJob(s, i, r).value.jobs);
  }

  lemma DisappearFifo(s: Server, i: nat)
    requires Core(s) && FifoOk(s.jobs) && i < |s.conns| && Disappear(s, i).Some?
    ensures FifoOk(Disappear(s, i).value.jobs)
  {
    if s.conns[i].hasJob { EndFifo(s, i, KILLED); }
  }

  lemma EnqueueFifo(s: Server, i: nat, r: Request)
    requires Core(s) && FifoOk(s.jobs) && i < |s.conns| && !s.conns[i].hasJob && EnqueueFor(s, i, r).Some?
    requires Plain(s, Read(i, NewJobMsg(r)))
    ensures FifoOk(EnqueueFor(s, i, r).value.jobs)
  {
    Ops.NewJobOk(s.jobs, r);
    var jobs := NewJob(s.jobs, r).value;
    FindAt(jobs.queue, |s.jobs.queue|);
    var t := EnqueueFor(s, i, r).value.jobs;
    assert jobs.queue == s.jobs.queue + [Enqueued(s.jobs, r)];
    NewestLast(s.jobs, Enqueued(s.jobs, r), t);
  }

  lemma NewestLast(s: Jobs, j: Job, t: Jobs)
    requires JobsOk(s) && FifoOk(s) && j.id == s.nextId && t.nextId == s.nextId + 1
    requires t.queue == s.queue + [j] && PlainJobs([j])
    requires |s.sent| <= |t.sent| && t.sent[..|s.sent|] == s.sent
    requires forall a :: |s.sent| <= a < |t.sent| ==> !t.sent[a].RunJob?
    ensures FifoOk(t)
  {
    forall i | 0 <= i < |s.queue| ensures s.queue[i].id < s.nextId { assert LiveJob(s.queue[i], s.nextId); }
    assert PlainJobs([j]) && [j][0] == j;
    forall a | 0 <= a < |t.sent| && t.sent[a].RunJob? ensures a < |s.sent| && t.sent[a] == s.sent[a] {
      assert t.sent[..|s.sent|] == s.sent;
    }
  }

  lemma RemoveFifo(s: Jobs, socket: int, id: int)
    requires JobsOk(s) && FifoOk(s) && RemoveJob(s, socket, id).Some?
    ensures FifoOk(RemoveJob(s, socket, id).value.0)
  {
    var t := RemoveJob(s, socket, id).value.0;
    RemoveStates(s, socket, id);
    match Locate(s, id)
    case Nowhere => SameFifo(s, t);
    case InQueue(k) =>
      if k == 0 || s.queue[k].state.Running? {
        SameFifo(s, t);
      } else {
        var s1 := s.(queue := s.queue[k := Dropped(s.queue[k])], lastErrorlevel := -1);
        NotifyAllSame(s1, s.queue[k].notifyTo, -1);
        RemovedFifo(s, NotifyAll(s1, s.queue[k].notifyTo, -1).queue, k, t);
      }
    case InFinished(k) =>
      var s1 := s.(finished := s.finished[k := Dropped(s.finished[k])], lastErrorlevel := -1);
      NotifyAllSame(s1, s.finished[k].notifyTo, -1);
      SameFifo(s, t);
  }

  lemma ReadFifo(s: Server, i: nat, m: Msg)
    requires Core(s) && FifoOk(s.jobs) && i < |s.conns| && ClientOk(s, Read(i, m)) && Plain(s, Read(i, m))
    requires ReadMsg(s, i, m).Some?
    ensures FifoOk(ReadMsg(s, i, m).value.jobs)
  {
    var t := ReadMsg(s, i, m).value;
    if Harmless(m) {
      HarmlessFrame(s, i, m);
      SameFifo(s.jobs, t.jobs);
    } else if m.ClosingQuery? || m.Info? {
      ClosingFrame(s, i, m);
      SameFifo(s.jobs, t.jobs);
    } else {
      match m
      case NewJobMsg(r) => EnqueueFifo(s, i, r);
      case EndJobMsg(r) => EndFifo(s, i, r);
      case RemoveJobMsg(id) => RemoveFifo(s.jobs, s.conns[i].socket, id);
      case Unknown => DisappearFifo(s, i);
      case EndOfStream => DisappearFifo(s, i);
    }
  }

  /** A plain launch takes the oldest waiting job. */
  lemma LaunchFifo(s: Server, query: GpuQuery)
    requires Core(s) && FifoOk(s.jobs) && s.jobs.build.Cpu? && LaunchOne(s, query).Some?
    ensures FifoOk(LaunchOne(s, query).value.jobs)
  {
    Ops.NextRunJobOk(s.jobs, query);
    FirstFit(s.jobs, query);
    var (jobs, k) := NextRunJob(s.jobs, query).value;
    SameFifo(s.jobs, jobs);
    if k >= 0 {
      forall m | 0 <= m < k ensures !IsRunnable(s.jobs.queue[m]) {
        assert !Eligible(s.jobs, m, query);
      }
      FindAt(jobs.queue, k);
      var t := StartJob(s.(jobs := jobs), k).value;
      OldestLaunched(jobs, k, t.jobs);
      assert WakeAll(t) == Some(t);
    }
  }

  lemma OldestLaunched(s: Jobs, k: nat, t: Jobs)
    requires ListsOk(s) && FifoOk(s) && k < |s.queue| && IsRunnable(s.queue[k])
    requires forall m :: 0 <= m < k ==> !IsRunnable(s.queue[m])
    requires t.queue == s.queue[k := s.queue[k].(state := Running)] && t.nextId == s.nextId
    requires exists socket, e, gpus :: t.sent == s.sent + [RunJob(socket, s.queue[k].id, e, gpus)]
    ensures FifoOk(t)
  {
    assert LiveJob(s.queue[k], s.nextId);
    forall i | 0 <= i < |t.queue| && IsRunnable(t.queue[i]) ensures s.queue[k].id < t.queue[i].id {
      assert i > k;
    }
  }

  lemma StepFifo(s: Server, e: Event)
    requires Core(s) && FifoOk(s.jobs) && s.jobs.build.Cpu? && ClientOk(s, e) && Plain(s, e) && Step(s, e).Some?
    ensures FifoOk(Step(s, e).value.jobs)
  {
    match e
    case Accept(_) =>
    case Launch(query) => LaunchFifo(s, query);
    case Read(i, m) => if i < |s.conns| { ReadFifo(s, i, m); }
  }

  lemma {:induction false} RunFifo(states: seq<Server>, evs: seq<Event>, n: nat)
    requires IsRun(states, evs) && n < |states|
    requires states[0].jobs.build.Cpu? && forall i :: 0 <= i < |evs| ==> Plain(states[i], evs[i])
    ensures FifoOk(states[n].jobs)
  {
    if n == 0 {
    } else {
      RunFifo(states, evs, n - 1);
      RunCore(states, evs, n - 1);
      assert ClientOk(states[n - 1], evs[n - 1]) && Step(states[n - 1], evs[n - 1]) == Some(states[n - 1 + 1]);
      assert Plain(states[n - 1], evs[n - 1]);
      StepFifo(states[n - 1], evs[n - 1]);
    }
  }

  /** Over a whole plain run, jobs are launched in increasing order of their ids. */
  lemma RunLaunchesInOrder(states: seq<Server>, evs: seq<Event>, n: nat, a: nat, b: nat)
    requires IsRun(states, evs) && n < |states|
    requires states[0].jobs.build.Cpu? && forall i :: 0 <= i < |evs| ==> Plain(states[i], evs[i])
    requires a < b < |states[n].jobs.sent| && states[n].jobs.sent[a].RunJob? && states[n].jobs.sent[b].RunJob?
    ensures states[n].jobs.sent[a].id < states[n].jobs.sent[b].id
  {
    RunFifo(states, evs, n);
  }
}
