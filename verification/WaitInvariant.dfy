/** `WaitOk` at every point of every run: a wait is lost by the removal of the job it is for, and by
    nothing else. */
module WaitInvariant {
  import opened JobTypes
  import opened JobSpec
  import opened JobInvariant
  import opened ServerSpec
  import opened ServerInvariant
  import opened Waiting
  import opened FirstJob
  import Ops = JobOperations

  // ---- frames ----

  lemma {:induction false} WakeAllFrame(s: Server)
    requires WakeAll(s).Some?
    ensures var t := WakeAll(s).value;
            t == s.(jobs := s.jobs.(queue := t.jobs.queue, sent := t.jobs.sent)) && |t.jobs.queue| == |s.jobs.queue|
    decreases Holding(s.jobs.queue)
  {
    var k := FindHolding(s.jobs.queue);
    if k < 0 {
    } else {
      HoldingUpdate(s.jobs.queue, k, Woken(s.jobs.queue[k]));
      WakeAllFrame(Send(s.(jobs := WakeHoldClient(s.jobs).0),
                        NewJobOk(s.conns[ConnOf(s.conns, s.jobs.queue[k].id)].socket, s.jobs.queue[k].id)));
    }
  }

  lemma LaunchFrame(s: Server, query: GpuQuery)
    requires LaunchOne(s, query).Some?
    ensures var t := LaunchOne(s, query).value;
            t == s.(jobs := s.jobs.(queue := t.jobs.queue, sent := t.jobs.sent, busy := t.jobs.busy,
                                    usedGpus := t.jobs.usedGpus))
  {
    var (jobs, k) := NextRunJob(s.jobs, query).value;
    if k >= 0 {
      WakeAllFrame(StartJob(s.(jobs := jobs), k).value);
    }
  }

  lemma {:induction false} OthersElements(w: seq<Waiter>, id: int)
    ensures forall i :: 0 <= i < |Others(w, id)| ==> Others(w, id)[i] in w && Others(w, id)[i].jobid != id
    ensures DistinctSockets(w) ==> DistinctSockets(Others(w, id))
  {
    if w == [] {
    } else {
      OthersElements(w[1..], id);
      if DistinctSockets(w) {
        assert DistinctSockets(w[1..]);
        assert forall x :: x in w[1..] ==> x.socket != w[0].socket;
      }
    }
  }

  /** The parts of the state `WaitOk` speaks of, moved to another state. */
  lemma WaitTransfer(s: Server, t: Server, lost: set<int>)
    requires WaitOk(s, lost) && t.jobs.maxFinished == s.jobs.maxFinished && t.jobs.finished == s.jobs.finished
    requires DistinctSockets(t.jobs.waiters)
    requires forall i :: 0 <= i < |t.jobs.waiters| ==> t.jobs.waiters[i] in s.jobs.waiters
    requires Ids(t.jobs.queue) == Ids(s.jobs.queue) && t.jobs.nextId == s.jobs.nextId
    requires forall i :: 0 <= i < |t.jobs.waiters| && IdleSocket(s.conns, t.jobs.waiters[i].socket) ==>
               IdleSocket(t.conns, t.jobs.waiters[i].socket)
    ensures WaitOk(t, lost)
  {
  }

  lemma IdleUpdate(conns: seq<Conn>, i: nat, c: Conn, socket: int)
    requires i < |conns| && c.socket == conns[i].socket && IdleSocket(conns, socket)
    requires !c.hasJob || conns[i].socket != socket
    ensures IdleSocket(conns[i := c], socket)
  {
    var m :| 0 <= m < |conns| && conns[m].socket == socket && !conns[m].hasJob;
    assert conns[i := c][m].socket == socket;
  }

  lemma IdleRemove(conns: seq<Conn>, i: nat, socket: int)
    requires i < |conns| && IdleSocket(conns, socket) && (conns[i].socket != socket || conns[i].hasJob)
    ensures IdleSocket(RemoveAt(conns, i), socket)
  {
    var m :| 0 <= m < |conns| && conns[m].socket == socket && !conns[m].hasJob;
    RemoveAtElements(conns, i);
    assert RemoveAt(conns, i)[if m < i then m else m - 1] == conns[m];
  }

  lemma {:induction false} IdleDrop(conns: seq<Conn>, id: int, i: nat, socket: int)
    requires IdleSocket(conns, socket)
    ensures IdleSocket(DropConns(conns, id, i), socket)
    decreases |conns| - i
  {
    if i >= |conns| {
    } else {
      if conns[i].hasJob && conns[i].jobid == id {
        IdleRemove(conns, i, socket);
        IdleDrop(RemoveAt(conns, i), id, i + 1, socket);
      } else {
        IdleDrop(conns, id, i + 1, socket);
      }
    }
  }

  // ---- the messages ----

  lemma KeptAfterEnd(s: Jobs, k: nat, r: Result, t: Jobs)
    requires JobsOk(s) && k < |s.queue| && FreeGpus(s, s.queue[k]).Some? && EndedAs(s, k, r, t)
    requires AllKept(s.finished) && |s.finished| <= s.maxFinished && s.maxFinished >= 2
    ensures AllKept(t.finished) && |t.finished| <= t.maxFinished && t.maxFinished == s.maxFinished
  {
    AfterEndFrame(s, k, r);
    var u := AfterEnd(s, k, r);
    forall i | 0 <= i < |u.finished| ensures u.finished[i].keep {
      assert SameJob(s.finished[i], u.finished[i]);
    }
  }

  lemma EndJobWait(s: Server, i: nat, r: Result, lost: set<int>)
    requires Core(s) && WaitOk(s, lost) && i < |s.conns| && s.conns[i].hasJob && EndJob(s, i, r).Some?
    ensures WaitOk(EndJob(s, i, r).value, lost)
    ensures forall m :: 0 <= m < |EndJob(s, i, r).value.jobs.waiters| ==>
      EndJob(s, i, r).value.jobs.waiters[m] in s.jobs.waiters
  {
    HolderHasJob(s, i);
    var id := s.conns[i].jobid;
    var k := Find(s.jobs.queue, id);
    EndUnfold(s.jobs, r, id);
    JobsEnd(s.jobs, k, r);
    AfterEndFrame(s.jobs, k, r);
    var t := EndJob(s, i, r).value;
    KeptAfterEnd(s.jobs, k, r, t.jobs);
    OthersElements(s.jobs.waiters, id);
    forall m | 0 <= m < |t.jobs.waiters|
      ensures IdleSocket(t.conns, t.jobs.waiters[m].socket) && t.jobs.waiters[m].jobid in Ids(t.jobs.queue) + lost
    {
      assert t.jobs.waiters[m] in s.jobs.waiters;
      IdleUpdate(s.conns, i, t.conns[i], t.jobs.waiters[m].socket);
    }
  }

  lemma RemoveConnectionWait(s: Server, i: nat, lost: set<int>)
    requires WaitOk(s, lost) && i < |s.conns| && !s.conns[i].hasJob && !Waits(s.jobs.waiters, s.conns[i].socket)
    ensures RemoveConnection(s, i).Some? && WaitOk(RemoveConnection(s, i).value, lost)
  {
    var t := RemoveConnection(s, i).value;
    forall m | 0 <= m < |t.jobs.waiters| ensures IdleSocket(t.conns, t.jobs.waiters[m].socket) {
      IdleRemove(s.conns, i, s.jobs.waiters[m].socket);
    }
  }

  lemma NotWaitingAfterRemoval(w: seq<Waiter>, socket: int)
    requires DistinctSockets(w)
    ensures var r := RemoveNotification(w, socket);
            && DistinctSockets(r) && !Waits(r, socket)
            && forall m :: 0 <= m < |r| ==> r[m] in w
  {
    var k := FindSocket(w, socket);
    if k >= 0 { RemoveAtElements(w, k); }
  }

  lemma DisappearWait(s: Server, i: nat, lost: set<int>)
    requires Core(s) && WaitOk(s, lost) && i < |s.conns| && Disappear(s, i).Some?
    ensures WaitOk(Disappear(s, i).value, lost)
  {
    var socket := s.conns[i].socket;
    if s.conns[i].hasJob {
      EndJobWait(s, i, KILLED, lost);
      var t := EndJob(s, i, KILLED).value;
      assert !Waits(t.jobs.waiters, socket) by {
        forall m | 0 <= m < |t.jobs.waiters| ensures t.jobs.waiters[m].socket != socket {
          assert t.jobs.waiters[m] in s.jobs.waiters;
        }
      }
      RemoveConnectionWait(t, i, lost);
    } else {
      NotWaitingAfterRemoval(s.jobs.waiters, socket);
      var t := s.(jobs := s.jobs.(waiters := RemoveNotification(s.jobs.waiters, socket)));
      WaitTransfer(s, t, lost);
      RemoveConnectionWait(t, i, lost);
    }
  }

  lemma HolderWait(s: Server, i: nat, jobs: Jobs, id: int, lost: set<int>)
    requires WaitOk(s, lost) && i < |s.conns| && !Waits(s.jobs.waiters, s.conns[i].socket)
    requires jobs.waiters == s.jobs.waiters && jobs.finished == s.jobs.finished
    requires jobs.maxFinished == s.jobs.maxFinished
    requires Ids(jobs.queue) == Ids(s.jobs.queue) + {s.jobs.nextId} && jobs.nextId == s.jobs.nextId + 1
    requires s.jobs.nextId >= 0
    ensures WaitOk(s.(jobs := jobs, conns := s.conns[i := Conn(s.conns[i].socket, true, id)]), lost)
  {
    var c := Conn(s.conns[i].socket, true, id);
    forall m | 0 <= m < |jobs.waiters| ensures IdleSocket(s.conns[i := c], jobs.waiters[m].socket) {
      IdleUpdate(s.conns, i, c, jobs.waiters[m].socket);
    }
  }

  lemma EnqueueWait(s: Server, i: nat, r: Request, lost: set<int>)
    requires Core(s) && WaitOk(s, lost) && i < |s.conns| && !s.conns[i].hasJob
    requires !Waits(s.jobs.waiters, s.conns[i].socket)
    requires EnqueueFor(s, i, r).Some?
    ensures WaitOk(EnqueueFor(s, i, r).value, lost)
  {
    var id := s.jobs.nextId;
    var socket := s.conns[i].socket;
    Ops.NewJobOk(s.jobs, r);
    var jobs := NewJob(s.jobs, r).value;
    HeldSet(s.conns, i, Conn(socket, true, id));
    HolderWait(s, i, jobs, id, lost);
    var s1 := s.(jobs := jobs, conns := s.conns[i := Conn(socket, true, id)]);
    var k := Find(jobs.queue, id);
    if k >= 0 && jobs.queue[k].state.HoldingClient? && !r.waitEnqueuing {
      RefusedWait(s1, i, NewJobNok(socket, id), lost);
    }
  }

  lemma RefusedWait(s: Server, i: nat, m: Sent, lost: set<int>)
    requires Core(s) && WaitOk(s, lost) && i < |s.conns| && s.conns[i].hasJob && Disappear(Send(s, m), i).Some?
    ensures WaitOk(Disappear(Send(s, m), i).value, lost)
  {
    DisappearWait(Send(s, m), i, lost);
  }

  /** check_notify_list(0), which s_remove_job calls, finds nobody to answer. */
  lemma RemoveNotifiesNobody(s: Jobs)
    requires Distinct(s.queue)
    requires forall i :: 0 <= i < |s.waiters| && s.waiters[i].jobid == 0 ==>
               Find(s.queue, 0) >= 0 && !IsDone(s.queue[Find(s.queue, 0)].state)
    ensures CheckNotify(s, 0) == Some(s)
  {
    if exists i :: 0 <= i < |s.waiters| && s.waiters[i].jobid == 0 {
      NotEndedYet(s, 0, 0);
    } else {
      NobodyWaits(s, 0, 0);
    }
  }

  lemma RemoveQueuedWait(s: Jobs, socket: int, k: nat)
    requires JobsOk(s) && k < |s.queue| && !(s.queue[k].id == 0 && Awaited(s.waiters, 0)) && AllKept(s.finished)
    requires Awaited(s.waiters, 0) ==> 0 in Ids(s.queue)
    ensures RemoveQueuedAt(s, socket, k).Some?
    ensures RemoveQueuedAt(s, socket, k).value.sent == s.sent + [RemoveJobOk(socket)]
    ensures var t := RemoveQueuedAt(s, socket, k).value;
            && t.waiters == s.waiters && AllKept(t.finished)
            && |t.finished| == |s.finished| && t.maxFinished == s.maxFinished
  {
    var s1 := s.(queue := s.queue[k := Dropped(s.queue[k])], lastErrorlevel := -1);
    var s2 := NotifyAll(s1, s.queue[k].notifyTo, -1);
    NotifyAllSame(s1, s.queue[k].notifyTo, -1);
    StillAwaitedAlive(s, k, s2);
    KeptSame(s.finished, s2.finished);
  }

  lemma RemoveFinishedWait(s: Jobs, socket: int, k: nat)
    requires JobsOk(s) && k < |s.finished| && AllKept(s.finished)
    requires Awaited(s.waiters, 0) ==> 0 in Ids(s.queue)
    ensures RemoveFinishedAt(s, socket, k).Some?
    ensures RemoveFinishedAt(s, socket, k).value.sent == s.sent + [RemoveJobOk(socket)]
    ensures var t := RemoveFinishedAt(s, socket, k).value;
            && t.waiters == s.waiters && AllKept(t.finished)
            && |t.finished| < |s.finished| && t.maxFinished == s.maxFinished
  {
    var s1 := s.(finished := s.finished[k := Dropped(s.finished[k])], lastErrorlevel := -1);
    var s2 := NotifyAll(s1, s.finished[k].notifyTo, -1);
    Ops.RemoveFinishedJob(s, k);
    NotifyAllSame(s1, s.finished[k].notifyTo, -1);
    NobodyOnFinished(s, s2);
    KeptSame(s1.finished, s2.finished);
    assert SameJob(s1.finished[k], s2.finished[k]);
    FindAt(s2.finished, k);
  }

  /** s_remove_job, when it does not remove an awaited job 0: it succeeds, and the waiters stay as they are. */
  lemma RemoveJobWait(s: Jobs, socket: int, id: int)
    requires JobsOk(s) && AllKept(s.finished) && (RemovesAwaited(s, id) ==> s.queue[Locate(s, id).k].id != 0)
    requires Awaited(s.waiters, 0) ==> 0 in Ids(s.queue)
    ensures RemoveJob(s, socket, id).Some?
    ensures var (t, removed) := RemoveJob(s, socket, id).value;
            t.sent == s.sent + [if removed == -1 then Line(socket) else RemoveJobOk(socket)]
    ensures var t := RemoveJob(s, socket, id).value.0;
            && t.waiters == s.waiters && AllKept(t.finished)
            && |t.finished| <= |s.finished| && t.maxFinished == s.maxFinished
  {
    match Locate(s, id)
    case Nowhere =>
    case InQueue(k) =>
      if !(k == 0 || s.queue[k].state.Running?) { RemoveQueuedWait(s, socket, k); }
    case InFinished(k) => RemoveFinishedWait(s, socket, k);
  }

  lemma KeptSame(a: seq<Job>, b: seq<Job>)
    requires SameJobs(a, b) && AllKept(a)
    ensures AllKept(b)
  {
    forall i | 0 <= i < |b| ensures b[i].keep { assert SameJob(a[i], b[i]); }
  }

  lemma StillAwaitedAlive(s: Jobs, k: nat, t: Jobs)
    requires JobsOk(s) && k < |s.queue| && !(s.queue[k].id == 0 && Awaited(s.waiters, 0)) && t.waiters == s.waiters
    requires Awaited(s.waiters, 0) ==> 0 in Ids(s.queue)
    requires SameJobs(s.queue[k := Dropped(s.queue[k])], t.queue)
    ensures CheckNotify(t, 0) == Some(t)
  {
    var q := s.queue[k := Dropped(s.queue[k])];
    IdsSame(s.queue, q);
    IdsSame(q, t.queue);
    forall i | 0 <= i < |t.waiters| && t.waiters[i].jobid == 0
      ensures Find(t.queue, 0) >= 0 && !IsDone(t.queue[Find(t.queue, 0)].state)
    {
      assert s.waiters[i].jobid in Ids(t.queue);
      var m := Find(t.queue, 0);
      assert SameJob(q[m], t.queue[m]) && m != k;
      assert LiveJob(s.queue[m], s.nextId);
    }
    RemoveNotifiesNobody(t);
  }

  lemma NobodyOnFinished(s: Jobs, t: Jobs)
    requires JobsOk(s) && ListsOk(t) && t.waiters == s.waiters && Ids(t.queue) == Ids(s.queue)
    requires Awaited(s.waiters, 0) ==> 0 in Ids(s.queue)
    ensures CheckNotify(t, 0) == Some(t)
  {
    forall i | 0 <= i < |t.waiters| && t.waiters[i].jobid == 0
      ensures Find(t.queue, 0) >= 0 && !IsDone(t.queue[Find(t.queue, 0)].state)
    {
      assert s.waiters[i].jobid in Ids(t.queue);
      assert LiveJob(t.queue[Find(t.queue, 0)], t.nextId);
    }
    RemoveNotifiesNobody(t);
  }

  lemma RemoveMsgWait(s: Server, i: nat, id: int, lost: set<int>)
    requires Core(s) && WaitOk(s, lost) && i < |s.conns|
    requires RemovesAwaited(s.jobs, id) ==> s.jobs.queue[Locate(s.jobs, id).k].id != 0
    ensures ReadMsg(s, i, RemoveJobMsg(id)).Some?
    ensures WaitOk(ReadMsg(s, i, RemoveJobMsg(id)).value, lost + LostBy(s, Read(i, RemoveJobMsg(id))))
  {
    var socket := s.conns[i].socket;
    RemoveJobWait(s.jobs, socket, id);
    var (j, removed) := RemoveJob(s.jobs, socket, id).value;
    Ops.RemoveJobOk(s.jobs, socket, id);
    var t := ReadMsg(s, i, RemoveJobMsg(id)).value;
    NamedAfterRemoval(s, i, id, lost);
    forall m | 0 <= m < |t.jobs.waiters| ensures IdleSocket(t.conns, t.jobs.waiters[m].socket) {
      if removed != -1 { IdleDrop(s.conns, removed, 0, t.jobs.waiters[m].socket); }
    }
  }

  lemma NamedAfterRemoval(s: Server, i: nat, id: int, lost: set<int>)
    requires Core(s) && WaitOk(s, lost) && i < |s.conns|
    requires RemovesAwaited(s.jobs, id) ==> s.jobs.queue[Locate(s.jobs, id).k].id != 0
    requires RemoveJob(s.jobs, s.conns[i].socket, id).Some?
    requires RemoveJob(s.jobs, s.conns[i].socket, id).value.0.waiters == s.jobs.waiters
    ensures Named(RemoveJob(s.jobs, s.conns[i].socket, id).value.0, lost + LostBy(s, Read(i, RemoveJobMsg(id))))
  {
    Ops.RemoveJobOk(s.jobs, s.conns[i].socket, id);
    match Locate(s.jobs, id)
    case InQueue(k) =>
      assert LiveJob(s.jobs.queue[k], s.jobs.nextId);
    case _ =>
  }

  lemma WaitForWait(s: Server, i: nat, j: Job, lost: set<int>)
    requires Core(s) && WaitOk(s, lost) && i < |s.conns| && !s.conns[i].hasJob
    requires !Waits(s.jobs.waiters, s.conns[i].socket)
    requires j in s.jobs.queue || j in s.jobs.finished
    ensures WaitOk(s.(jobs := WaitFor(s.jobs, s.conns[i].socket, j)), lost)
  {
    var socket := s.conns[i].socket;
    if !IsDone(j.state) {
      var k :| 0 <= k < |s.jobs.queue| && s.jobs.queue[k] == j;
      assert IdleSocket(s.conns, socket);
    }
  }

  lemma ReadWait(s: Server, i: nat, m: Msg, lost: set<int>)
    requires Core(s) && WaitOk(s, lost) && i < |s.conns| && ClientOk(s, Read(i, m)) && ReadMsg(s, i, m).Some?
    requires ZeroFirst(s.jobs.queue)
    ensures WaitOk(ReadMsg(s, i, m).value, lost + LostBy(s, Read(i, m)))
  {
    if !m.RemoveJobMsg? { assert lost + LostBy(s, Read(i, m)) == lost; }
    if m.WaitJobMsg? || m.WaitRunningJobMsg? {
      WaitMsgWait(s, i, m, lost);
    } else if Harmless(m) {
      HarmlessWaiters(s, i, m);
      HarmlessFrame(s, i, m);
    } else if m.UrgentMsg? || m.SwapJobsMsg? {
      OrderMsgWait(s, i, m, lost);
    } else {
      match m
      case NewJobMsg(r) => EnqueueWait(s, i, r, lost);
      case EndJobMsg(r) => EndJobWait(s, i, r, lost);
      case ClosingQuery => RemoveConnectionWait(Send(s, Answer(s.conns[i].socket)), i, lost);
      case Info(_) => RemoveConnectionWait(Send(s, Answer(s.conns[i].socket)), i, lost);
      case RemoveJobMsg(id) => RemoveMsgWait(s, i, id, lost);
      case Unknown => DisappearWait(s, i, lost);
      case EndOfStream => DisappearWait(s, i, lost);
    }
  }

  lemma HarmlessWaiters(s: Server, i: nat, m: Msg)
    requires i < |s.conns| && Harmless(m) && !m.WaitJobMsg? && !m.WaitRunningJobMsg? && ReadMsg(s, i, m).Some?
    ensures ReadMsg(s, i, m).value.jobs.waiters == s.jobs.waiters
  {
  }

  lemma OrderMsgWait(s: Server, i: nat, m: Msg, lost: set<int>)
    requires Core(s) && WaitOk(s, lost) && i < |s.conns| && (m.UrgentMsg? || m.SwapJobsMsg?) && ReadMsg(s, i, m).Some?
    ensures WaitOk(ReadMsg(s, i, m).value, lost)
  {
    if m.UrgentMsg? {
      Ops.MoveUrgentOk(s.jobs, s.conns[i].socket, m.id);
    } else {
      Ops.SwapJobsOk(s.jobs, s.conns[i].socket, m.id1, m.id2);
    }
    WaitTransfer(s, ReadMsg(s, i, m).value, lost);
  }

  lemma WaitMsgWait(s: Server, i: nat, m: Msg, lost: set<int>)
    requires Core(s) && WaitOk(s, lost) && i < |s.conns| && (m.WaitJobMsg? || m.WaitRunningJobMsg?)
    requires ClientOk(s, Read(i, m)) && ReadMsg(s, i, m).Some?
    ensures WaitOk(ReadMsg(s, i, m).value, lost)
  {
    if m.WaitRunningJobMsg? && m.id == -1 {
      if s.jobs.busy > 0 {
        WaitForWait(s, i, s.jobs.queue[0], lost);
      } else if s.jobs.finished != [] {
        WaitForWait(s, i, s.jobs.finished[|s.jobs.finished| - 1], lost);
      }
    } else {
      var j := if m.id == -1 then LastJob(s.jobs) else GetJob(s.jobs, m.id);
      if j.Some? { WaitForWait(s, i, j.value, lost); }
    }
  }

  lemma StepWait(s: Server, e: Event, lost: set<int>)
    requires Core(s) && WaitOk(s, lost) && ZeroFirst(s.jobs.queue) && ClientOk(s, e) && Step(s, e).Some?
    ensures WaitOk(Step(s, e).value, lost + LostBy(s, e))
  {
    var t := Step(s, e).value;
    if !e.Read? || e.index >= |s.conns| { assert lost + LostBy(s, e) == lost; }
    match e
    case Accept(socket) =>
      if |s.conns| < s.maxConns {
        forall m | 0 <= m < |s.jobs.waiters| ensures IdleSocket(t.conns, s.jobs.waiters[m].socket) {
          var c :| 0 <= c < |s.conns| && s.conns[c].socket == s.jobs.waiters[m].socket && !s.conns[c].hasJob;
          assert t.conns[c] == s.conns[c];
        }
      }
    case Read(i, m) => if i < |s.conns| { ReadWait(s, i, m, lost); }
    case Launch(query) =>
      LaunchFrame(s, query);
      LaunchCore(s, query);
      LaunchOrder(s, query);
      IdsSame(s.jobs.queue, t.jobs.queue);
      WaitTransfer(s, t, lost);
  }

  /** The jobs whose waits were lost by the first `n` events of a run. */
  function LostUpTo(states: seq<Server>, evs: seq<Event>, n: nat): set<int>
    requires n <= |evs| <= |states|
  {
    if n == 0 then {} else LostUpTo(states, evs, n - 1) + LostBy(states[n - 1], evs[n - 1])
  }

  /** At every point of every run every waiter names a job of the run queue, for which it will be
      answered when that job ends, or a job removed while it was awaited; finished jobs beyond the
      limit are dropped. */
  lemma {:induction false} RunWait(states: seq<Server>, evs: seq<Event>, n: nat)
    requires IsRun(states, evs) && n < |states| && states[0].jobs.maxFinished >= 2
    ensures WaitOk(states[n], LostUpTo(states, evs, n))
  {
    if n == 0 {
    } else {
      RunWait(states, evs, n - 1);
      RunCore(states, evs, n - 1);
      RunZeroFirst(states, evs, n - 1);
      assert ClientOk(states[n - 1], evs[n - 1]) && Step(states[n - 1], evs[n - 1]) == Some(states[n - 1 + 1]);
      StepWait(states[n - 1], evs[n - 1], LostUpTo(states, evs, n - 1));
    }
  }

  /** A waiter whose job is queued no more. */
  ghost predicate HasLostWait(s: Jobs) { exists i :: 0 <= i < |s.waiters| && s.waiters[i].jobid !in Ids(s.queue) }

  /** An event that the server survives makes the first lost wait exactly when it removes an awaited job. */
  lemma StepLoses(s: Server, e: Event)
    requires Core(s) && WaitOk(s, {}) && ZeroFirst(s.jobs.queue) && ClientOk(s, e) && Step(s, e).Some?
    ensures HasLostWait(Step(s, e).value.jobs) <==> LostBy(s, e) != {}
  {
    StepWait(s, e, {});
    if LostBy(s, e) != {} {
      var i := e.index;
      var k := Locate(s.jobs, e.msg.id).k;
      RemoveJobWait(s.jobs, s.conns[i].socket, e.msg.id);
      var m :| 0 <= m < |s.jobs.waiters| && s.jobs.waiters[m].jobid == s.jobs.queue[k].id;
      assert Step(s, e).value.jobs.waiters[m].jobid in LostBy(s, e);
    }
  }

  /** No wait is ever lost in a run if and only if no event of it removes an awaited job. */
  lemma RunLosesNone(states: seq<Server>, evs: seq<Event>)
    requires IsRun(states, evs) && states[0].jobs.maxFinished >= 2
    ensures (forall n :: 0 <= n < |states| ==> !HasLostWait(states[n].jobs)) <==>
            (forall i :: 0 <= i < |evs| ==> LostBy(states[i], evs[i]) == {})
  {
    if forall n :: 0 <= n < |states| ==> !HasLostWait(states[n].jobs) {
      forall i | 0 <= i < |evs| ensures LostBy(states[i], evs[i]) == {} { FirstLoss(states, evs, i); }
    }
    if forall i :: 0 <= i < |evs| ==> LostBy(states[i], evs[i]) == {} {
      forall n | 0 <= n < |states| ensures !HasLostWait(states[n].jobs) {
        NothingLost(states, evs, n);
        RunWait(states, evs, n);
      }
    }
  }

  lemma {:induction false} NothingLost(states: seq<Server>, evs: seq<Event>, n: nat)
    requires n <= |evs| <= |states| && forall i :: 0 <= i < n ==> LostBy(states[i], evs[i]) == {}
    ensures LostUpTo(states, evs, n) == {}
  {
    if n == 0 {
    } else {
      NothingLost(states, evs, n - 1);
    }
  }

  lemma {:induction false} FirstLoss(states: seq<Server>, evs: seq<Event>, n: nat)
    requires IsRun(states, evs) && states[0].jobs.maxFinished >= 2 && n < |evs|
    requires forall m :: 0 <= m < |states| ==> !HasLostWait(states[m].jobs)
    ensures forall i :: 0 <= i <= n ==> LostBy(states[i], evs[i]) == {}
  {
    if n == 0 {
    } else {
      FirstLoss(states, evs, n - 1);
    }
    NothingLost(states, evs, n);
    RunWait(states, evs, n);
    RunCore(states, evs, n);
    RunZeroFirst(states, evs, n);
    assert ClientOk(states[n], evs[n]) && Step(states[n], evs[n]) == Some(states[n + 1]);
    StepLoses(states[n], evs[n]);
  }
}
