/** A job stays what its request asked for as long as it is in the queue: the server never changes whether it
    is to be kept, how many slots it takes, or which devices it wants, and it allocates devices only for those
    that want some. */
module Asked {
  import opened JobTypes
  import opened JobSpec
  import opened JobInvariant
  import opened ServerSpec
  import opened ServerInvariant
  import opened Waiting
  import opened ProtocolRuns
  import opened Requests
  import Halting
  import Ops = JobOperations

  /** The request of every job, by the id it was given. */
  function RequestStep(requests: map<int, Request>, s: Server, e: Event): map<int, Request> {
    match e
    case Read(i, NewJobMsg(r)) => if i < |s.conns| then requests[s.jobs.nextId := r] else requests
    case _ => requests
  }

  function Submissions(states: seq<Server>, evs: seq<Event>, n: nat): map<int, Request>
    requires n <= |evs| <= |states|
  {
    if n == 0 then map[] else RequestStep(Submissions(states, evs, n - 1), states[n - 1], evs[n - 1])
  }

  /** A job that waits to run is allocating exactly when it is to be given devices. */
  predicate WaitsSo(j: Job) { IsRunnable(j) && j.waitFreeGpus ==> (j.state.Allocating? <==> j.numGpus != 0) }

  ghost predicate IsAsked(j: Job, requests: map<int, Request>) {
    j.id in requests && AsAsked(j, requests[j.id]) && WaitsSo(j)
  }

  ghost predicate AllAsked(q: seq<Job>, requests: map<int, Request>) {
    forall i :: 0 <= i < |q| ==> IsAsked(q[i], requests)
  }

  /** The two jobs want the same, and the second waits as the first does or no longer. */
  ghost predicate Alike(a: Job, b: Job) {
    && b.id == a.id && b.keep == a.keep && b.numSlots == a.numSlots && b.waitFreeGpus == a.waitFreeGpus
    && b.numGpus == a.numGpus && (!a.waitFreeGpus ==> b.gpuIds == a.gpuIds)
    && (b.state == a.state || !IsRunnable(b))
  }

  ghost predicate AllAlike(q: seq<Job>, u: seq<Job>) { |u| == |q| && forall i :: 0 <= i < |q| ==> Alike(q[i], u[i]) }

  lemma AlikeAsked(q: seq<Job>, u: seq<Job>, requests: map<int, Request>)
    requires AllAlike(q, u) && AllAsked(q, requests)
    ensures AllAsked(u, requests)
  {
    forall i | 0 <= i < |u| ensures IsAsked(u[i], requests) {
      assert Alike(q[i], u[i]) && IsAsked(q[i], requests);
    }
  }

  lemma RemovedAsked(q: seq<Job>, k: nat, requests: map<int, Request>)
    requires k < |q| && AllAsked(q, requests)
    ensures AllAsked(RemoveAt(q, k), requests)
  {
    RemoveAtElements(q, k);
  }

  lemma NotifiedAlike(s: Jobs, ids: seq<int>, e: int)
    ensures AllAlike(s.queue, NotifyAll(s, ids, e).queue)
  {
    NotifyAllSame(s, ids, e);
  }

  // ---- one event ----

  lemma EndAsked(s: Server, i: nat, r: Result, requests: map<int, Request>)
    requires Core(s) && AllAsked(s.jobs.queue, requests) && i < |s.conns| && s.conns[i].hasJob && EndJob(s, i, r).Some?
    ensures AllAsked(EndJob(s, i, r).value.jobs.queue, requests)
  {
    HolderHasJob(s, i);
    var k := Find(s.jobs.queue, s.conns[i].jobid);
    EndUnfold(s.jobs, r, s.conns[i].jobid);
    var s1 := RecordEnd(FreeGpus(s.jobs, s.jobs.queue[k]).value, k, r);
    AlikeAsked(s.jobs.queue, s1.queue, requests);
    NotifiedAlike(s1, s.jobs.queue[k].notifyTo, r.errorlevel);
    AlikeAsked(s1.queue, AfterEnd(s.jobs, k, r).queue, requests);
    RemovedAsked(AfterEnd(s.jobs, k, r).queue, k, requests);
  }

  lemma DisappearAsked(s: Server, i: nat, requests: map<int, Request>)
    requires Core(s) && AllAsked(s.jobs.queue, requests) && i < |s.conns| && Disappear(s, i).Some?
    ensures AllAsked(Disappear(s, i).value.jobs.queue, requests)
  {
    if s.conns[i].hasJob { EndAsked(s, i, KILLED, requests); }
  }

  lemma GrownAsked(s: Jobs, r: Request, requests: map<int, Request>)
    requires JobsOk(s) && AllAsked(s.queue, requests) && NewJob(s, r).Some?
    ensures AllAsked(NewJob(s, r).value.queue, requests[s.nextId := r])
  {
    NewJobAsAsked(s, r);
    Ops.NewJobOk(s, r);
    AddDependenciesSame(s, Enqueued(s, r), r.dependOn);
    var q := NewJob(s, r).value.queue;
    forall m | 0 <= m < |q| ensures IsAsked(q[m], requests[s.nextId := r]) {
      if m < |s.queue| {
        assert LiveJob(s.queue[m], s.nextId) && IsAsked(s.queue[m], requests);
        assert q[m] == s.queue[m].(notifyTo := q[m].notifyTo);
      }
    }
  }

  lemma EnqueueAsked(s: Server, i: nat, r: Request, requests: map<int, Request>)
    requires Core(s) && AllAsked(s.jobs.queue, requests) && i < |s.conns| && !s.conns[i].hasJob
    requires EnqueueFor(s, i, r).Some?
    ensures AllAsked(EnqueueFor(s, i, r).value.jobs.queue, requests[s.jobs.nextId := r])
  {
    GrownAsked(s.jobs, r, requests);
    Ops.NewJobOk(s.jobs, r);
    Halting.EnqueueIs(s, i, r);
    if Halting.Refused(s, r) {
      HeldSet(s.conns, i, Conn(s.conns[i].socket, true, s.jobs.nextId));
      DisappearAsked(Halting.RefusedJob(s, i, r), i, requests[s.jobs.nextId := r]);
    }
  }

  lemma RemoveAsked(s: Jobs, socket: int, id: int, requests: map<int, Request>)
    requires JobsOk(s) && AllAsked(s.queue, requests) && RemoveJob(s, socket, id).Some?
    ensures AllAsked(RemoveJob(s, socket, id).value.0.queue, requests)
  {
    match Locate(s, id)
    case Nowhere =>
    case InQueue(k) =>
      if !(k == 0 || s.queue[k].state.Running?) {
        QueuedRemoved(s, socket, k);
        var t := RemoveQueuedAt(s, socket, k).value.queue;
        forall i | 0 <= i < |t| ensures IsAsked(t[i], requests) {
          assert IsAsked(s.queue[if i < k then i else i + 1], requests);
        }
      }
    case InFinished(k) =>
      var s1 := s.(finished := s.finished[k := Dropped(s.finished[k])], lastErrorlevel := -1);
      NotifiedAlike(s1, s.finished[k].notifyTo, -1);
      AlikeAsked(s.queue, NotifyAll(s1, s.finished[k].notifyTo, -1).queue, requests);
  }

  lemma OrderAsked(s: Server, i: nat, m: Msg, requests: map<int, Request>)
    requires JobsOk(s.jobs) && AllAsked(s.jobs.queue, requests) && i < |s.conns| && (m.UrgentMsg? || m.SwapJobsMsg?)
    requires ReadMsg(s, i, m).Some?
    ensures AllAsked(ReadMsg(s, i, m).value.jobs.queue, requests)
  {
    if m.UrgentMsg? {
      Ops.MoveUrgentOk(s.jobs, s.conns[i].socket, m.id);
    } else {
      Ops.SwapJobsOk(s.jobs, s.conns[i].socket, m.id1, m.id2);
    }
    Reordered(s.jobs.queue, ReadMsg(s, i, m).value.jobs.queue, requests);
  }

  lemma Reordered(q: seq<Job>, u: seq<Job>, requests: map<int, Request>)
    requires AllAsked(q, requests) && forall k :: 0 <= k < |u| ==> u[k] in q
    ensures AllAsked(u, requests)
  {
    forall k | 0 <= k < |u| ensures IsAsked(u[k], requests) {
      var m :| 0 <= m < |q| && q[m] == u[k];
    }
  }

  lemma ReadAsked(s: Server, i: nat, m: Msg, requests: map<int, Request>)
    requires Core(s) && AllAsked(s.jobs.queue, requests) && i < |s.conns| && ClientOk(s, Read(i, m))
    requires ReadMsg(s, i, m).Some?
    ensures AllAsked(ReadMsg(s, i, m).value.jobs.queue, RequestStep(requests, s, Read(i, m)))
  {
    if Harmless(m) {
      HarmlessFrame(s, i, m);
    } else if m.ClosingQuery? || m.Info? {
      ClosingFrame(s, i, m);
    } else if m.UrgentMsg? || m.SwapJobsMsg? {
      OrderAsked(s, i, m, requests);
    } else {
      match m
      case NewJobMsg(r) => EnqueueAsked(s, i, r, requests);
      case EndJobMsg(r) => EndAsked(s, i, r, requests);
      case RemoveJobMsg(id) => RemoveAsked(s.jobs, s.conns[i].socket, id, requests);
      case Unknown => DisappearAsked(s, i, requests);
      case EndOfStream => DisappearAsked(s, i, requests);
    }
  }

  lemma {:induction false} ScanAlike(s: Jobs, i: nat, query: GpuQuery)
    requires i <= |s.queue|
    ensures AllAlike(s.queue, Scan(s, i, query).0.queue)
    decreases |s.queue| - i
  {
    if i == |s.queue| {
    } else if !IsRunnable(s.queue[i]) || Tentative(s, s.queue[i], i, query).None? {
      ScanAlike(s, i + 1, query);
    } else {
      var s' := s.(queue := s.queue[i := Tentative(s, s.queue[i], i, query).value]);
      assert AllAlike(s.queue, s'.queue);
      ScanAlike(s', i + 1, query);
    }
  }

  lemma {:induction false} WakeAsked(s: Server, requests: map<int, Request>)
    requires WakeAll(s).Some? && AllAsked(s.jobs.queue, requests)
    ensures AllAsked(WakeAll(s).value.jobs.queue, requests)
    decreases Holding(s.jobs.queue)
  {
    var k := FindHolding(s.jobs.queue);
    if k < 0 {
    } else {
      var j := s.jobs.queue[k];
      HoldingUpdate(s.jobs.queue, k, Woken(j));
      assert IsAsked(j, requests);
      assert AllAsked(s.jobs.queue[k := Woken(j)], requests);
      WakeAsked(Send(s.(jobs := WakeHoldClient(s.jobs).0), NewJobOk(s.conns[ConnOf(s.conns, j.id)].socket, j.id)),
                requests);
    }
  }

  lemma LaunchAsked(s: Server, query: GpuQuery, requests: map<int, Request>)
    requires LaunchOne(s, query).Some? && AllAsked(s.jobs.queue, requests)
    ensures AllAsked(LaunchOne(s, query).value.jobs.queue, requests)
  {
    ScanAlike(s.jobs, 0, query);
    var (jobs, k) := NextRunJob(s.jobs, query).value;
    AlikeAsked(s.jobs.queue, Scan(s.jobs, 0, query).0.queue, requests);
    if k >= 0 {
      var t := StartJob(s.(jobs := jobs), k).value;
      AlikeAsked(jobs.queue, t.jobs.queue, requests);
      WakeAsked(t, requests);
    }
  }

  lemma StepAsked(s: Server, e: Event, requests: map<int, Request>)
    requires Core(s) && AllAsked(s.jobs.queue, requests) && ClientOk(s, e) && Step(s, e).Some?
    ensures AllAsked(Step(s, e).value.jobs.queue, RequestStep(requests, s, e))
  {
    match e
    case Accept(_) =>
    case Launch(query) => LaunchAsked(s, query, requests);
    case Read(i, m) => if i < |s.conns| { ReadAsked(s, i, m, requests); }
  }

  /** At every point of every run every job of the queue is as its own request asked for. */
  lemma {:induction false} RunAsked(states: seq<Server>, evs: seq<Event>, n: nat)
    requires IsRun(states, evs) && n < |states|
    ensures AllAsked(states[n].jobs.queue, Submissions(states, evs, n))
  {
    if n == 0 {
    } else {
      RunAsked(states, evs, n - 1);
      RunCore(states, evs, n - 1);
      assert ClientOk(states[n - 1], evs[n - 1]) && Step(states[n - 1], evs[n - 1]) == Some(states[n - 1 + 1]);
      StepAsked(states[n - 1], evs[n - 1], Submissions(states, evs, n - 1));
    }
  }
}
