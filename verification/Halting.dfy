/** Exactly which events end the server process. The source promises that none does; five
    families of events do, each recognisable before the event. */
module Halting {
  import opened JobTypes
  import opened JobSpec
  import opened JobInvariant
  import opened ServerSpec
  import opened ServerInvariant
  import opened Waiting
  import opened FirstJob
  import opened WaitInvariant
  import opened Scheduling
  import opened GpuExclusive
  import Ops = JobOperations

  /** A job cannot end while the slot counter is not positive, nor (GPU build) while it
      carries device ids outside the table, as one that never passed the device test does. */
  predicate CannotEnd(s: Jobs, j: Job) {
    s.busy <= 0 || (s.build.Gpu? && !InRange(j.gpuIds, s.build.total))
  }

  predicate HolderCannotEnd(s: Server, i: nat)
    requires i < |s.conns|
  {
    var k := Find(s.jobs.queue, s.conns[i].jobid);
    k >= 0 && CannotEnd(s.jobs, s.jobs.queue[k])
  }

  predicate RemovesAwaitedZero(s: Jobs, id: int) {
    RemovesAwaited(s, id) && s.queue[Locate(s, id).k].id == 0 && !s.queue[Locate(s, id).k].keep
  }

  /** With a slot free, the first job that can be launched has devices fixed by the user that do not exist. */
  predicate LaunchesForeignDevice(s: Jobs, query: GpuQuery) {
    s.build.Gpu? && s.busy < s.maxSlots && exists k :: 0 <= k < |s.queue| && FirstIsForeign(s, k, query)
  }

  predicate FirstIsForeign(s: Jobs, k: nat, query: GpuQuery)
    requires k < |s.queue|
  {
    && Eligible(s, k, query) && (forall m :: 0 <= m < k ==> !Eligible(s, m, query))
    && s.queue[k].numGpus != 0 && !s.queue[k].waitFreeGpus
    && s.build.Gpu? && !InRange(s.queue[k].gpuIds, s.build.total)
  }

  /** A device query names different devices that exist. */
  ghost predicate DevicesOk(s: Server, e: Event) {
    e.Launch? && s.jobs.build.Gpu? ==> QueryOk(e.query, s.jobs.build.total)
  }

  predicate Halts(s: Server, e: Event) {
    match e
    case Accept(_) => false
    case Launch(query) => LaunchesForeignDevice(s.jobs, query)
    case Read(i, m) =>
      i < |s.conns| &&
      match m
      case EndJobMsg(_) => HolderCannotEnd(s, i)
      case EndOfStream => s.conns[i].hasJob && HolderCannotEnd(s, i)
      case Unknown => s.conns[i].hasJob && HolderCannotEnd(s, i)
      case NewJobMsg(r) =>
        Refused(s, r) && CannotEnd(s.jobs, Enqueued(s.jobs, r))
      case UrgentMsg(id) => |s.jobs.queue| > 1 && s.jobs.queue[0].id == id
      case RemoveJobMsg(id) => RemovesAwaitedZero(s.jobs, id)
      case _ => false
  }

  // ---- the cases ----

  lemma EndHalts(s: Server, i: nat, r: Result, lost: set<int>)
    requires Core(s) && WaitOk(s, lost) && i < |s.conns| && s.conns[i].hasJob
    ensures EndJob(s, i, r).None? <==> HolderCannotEnd(s, i)
    ensures Disappear(s, i).None? <==> HolderCannotEnd(s, i)
  {
    EndAnswers(s, i, r, lost);
    EndAnswers(s, i, KILLED, lost);
  }

  /** The request is refused at once: the queue is full and the client does not wait. */
  predicate Refused(s: Server, r: Request) { !r.waitEnqueuing && |s.jobs.queue| + 1 >= s.jobs.maxJobs }

  /** The refusal has been sent, and the job is still there. */
  function RefusedJob(s: Server, i: nat, r: Request): Server
    requires i < |s.conns| && NewJob(s.jobs, r).Some?
  {
    var id := s.jobs.nextId;
    var c := Conn(s.conns[i].socket, true, id);
    Send(s.(jobs := NewJob(s.jobs, r).value, conns := s.conns[i := c]), NewJobNok(c.socket, id))
  }

  /** A submission that is refused ends like a client that goes away; any other changes the jobs no further. */
  lemma EnqueueIs(s: Server, i: nat, r: Request)
    requires JobsOk(s.jobs) && i < |s.conns| && NewJob(s.jobs, r).Some?
    ensures Refused(s, r) ==> EnqueueFor(s, i, r) == Disappear(RefusedJob(s, i, r), i)
    ensures !Refused(s, r) ==> EnqueueFor(s, i, r).Some?
    ensures !Refused(s, r) ==>
              var t := EnqueueFor(s, i, r).value.jobs;
              t == NewJob(s.jobs, r).value.(sent := t.sent)
  {
    Ops.NewJobOk(s.jobs, r);
    FindAt(NewJob(s.jobs, r).value.queue, |s.jobs.queue|);
  }

  lemma EnqueueHalts(s: Server, i: nat, r: Request, lost: set<int>)
    requires Core(s) && WaitOk(s, lost) && i < |s.conns|
    requires !s.conns[i].hasJob && !Waits(s.jobs.waiters, s.conns[i].socket)
    ensures EnqueueFor(s, i, r).None? <==> Refused(s, r) && CannotEnd(s.jobs, Enqueued(s.jobs, r))
  {
    var id := s.jobs.nextId;
    var socket := s.conns[i].socket;
    NewJobDefined(s.jobs, r);
    Ops.NewJobOk(s.jobs, r);
    var jobs := NewJob(s.jobs, r).value;
    EnqueueIs(s, i, r);
    if Refused(s, r) {
      HeldSet(s.conns, i, Conn(socket, true, id));
      HolderWait(s, i, jobs, id, lost);
      EndHalts(RefusedJob(s, i, r), i, KILLED, lost);
    }
  }

  /** s_newjob never reaches its error branch. */
  lemma NewJobDefined(s: Jobs, r: Request)
    requires JobsOk(s)
    ensures NewJob(s, r).Some?
    ensures |NewJob(s, r).value.queue| == |s.queue| + 1
    ensures NewJob(s, r).value.queue[|s.queue|].gpuIds == Enqueued(s, r).gpuIds
  {
    Ops.AddDependenciesDefined(s, Enqueued(s, r), r.dependOn);
    AddDependenciesSame(s, Enqueued(s, r), r.dependOn);
  }

  lemma UrgentHalts(s: Jobs, socket: int, id: int)
    requires JobsOk(s)
    ensures MoveUrgent(s, socket, id).None? <==> |s.queue| > 1 && s.queue[0].id == id
  {
    if |s.queue| > 1 {
      assert LiveJob(s.queue[0], s.nextId);
      FindAt(s.queue, 0);
    }
  }

  /** Everybody from position `i` on who waits for `id` was answered with `e` and taken off the list. */
  ghost predicate AnsweredFrom(s: Jobs, id: int, e: int, i: nat, t: Jobs)
    requires i <= |s.waiters|
  {
    t == s.(waiters := s.waiters[..i] + Others(s.waiters[i..], id), sent := s.sent + Answers(s.waiters[i..], id, e))
  }

  lemma AnsweredSkip(s: Jobs, id: int, e: int, i: nat, t: Jobs)
    requires i < |s.waiters| && s.waiters[i].jobid != id && AnsweredFrom(s, id, e, i + 1, t)
    ensures AnsweredFrom(s, id, e, i, t)
  {
    var w := s.waiters;
    assert w[i..][0] == w[i] && w[i..][1..] == w[i + 1..];
    assert w[..i + 1] + Others(w[i + 1..], id) == w[..i] + Others(w[i..], id);
  }

  lemma AnsweredNext(s: Jobs, id: int, e: int, i: nat, t: Jobs, u: Jobs)
    requires i < |s.waiters| && s.waiters[i].jobid == id
    requires t == s.(sent := s.sent + [WaitJobOk(s.waiters[i].socket, e)], waiters := t.waiters)
    requires i <= |t.waiters| && t.waiters[..i] == s.waiters[..i] && t.waiters[i..] == s.waiters[i + 1..]
    requires AnsweredFrom(t, id, e, i, u)
    ensures AnsweredFrom(s, id, e, i, u)
  {
    var w := s.waiters;
    assert w[i..][0] == w[i] && w[i..][1..] == w[i + 1..];
    assert s.sent + [WaitJobOk(w[i].socket, e)] + Answers(w[i + 1..], id, e) == s.sent + Answers(w[i..], id, e);
  }

  /** check_notify_list for a job that ended but still sits in the run queue: it ends the process when
      it would drop the job with its last answer. */
  lemma {:induction false} DoneInQueueHalts(s: Jobs, id: int, i: nat)
    requires Find(s.queue, id) >= 0 && IsDone(s.queue[Find(s.queue, id)].state)
    requires DistinctSockets(s.waiters) && i <= |s.waiters|
    requires forall m :: 0 <= m < i ==> s.waiters[m].jobid != id
    ensures CheckNotifyFrom(s, id, i).None? <==> Awaited(s.waiters[i..], id) && !s.queue[Find(s.queue, id)].keep
    decreases |s.waiters| - i
  {
    var w := s.waiters;
    if i == |w| {
    } else if w[i].jobid != id {
      TailAwaited(w, i, id);
      DoneInQueueHalts(s, id, i + 1);
    } else {
      TailAwaited(w, i, id);
      DoneInQueueOne(s, id, i);
      var t := AnswerWaiter(s, w[i], s.queue[Find(s.queue, id)]);
      if t.Some? { DoneInQueueHalts(t.value, id, i); }
    }
  }

  /** Otherwise it answers everybody who waits for the job. */
  lemma {:induction false} DoneInQueue(s: Jobs, id: int, i: nat)
    requires Find(s.queue, id) >= 0 && IsDone(s.queue[Find(s.queue, id)].state)
    requires DistinctSockets(s.waiters) && i <= |s.waiters|
    requires forall m :: 0 <= m < i ==> s.waiters[m].jobid != id
    requires CheckNotifyFrom(s, id, i).Some?
    ensures AnsweredFrom(s, id, s.queue[Find(s.queue, id)].errorlevel, i, CheckNotifyFrom(s, id, i).value)
    decreases |s.waiters| - i
  {
    var w := s.waiters;
    var j := s.queue[Find(s.queue, id)];
    if i == |w| {
      assert w[i..] == [] && w[..i] == w;
    } else if w[i].jobid != id {
      DoneInQueue(s, id, i + 1);
      AnsweredSkip(s, id, j.errorlevel, i, CheckNotifyFrom(s, id, i + 1).value);
    } else {
      DoneInQueueOne(s, id, i);
      var t := AnswerWaiter(s, w[i], j).value;
      DoneInQueue(t, id, i);
      AnsweredNext(s, id, j.errorlevel, i, t, CheckNotifyFrom(t, id, i).value);
    }
  }

  lemma DoneInQueueOne(s: Jobs, id: int, i: nat)
    requires Find(s.queue, id) >= 0 && DistinctSockets(s.waiters) && i < |s.waiters| && s.waiters[i].jobid == id
    requires forall m :: 0 <= m < i ==> s.waiters[m].jobid != id
    ensures var j := s.queue[Find(s.queue, id)];
            var t := AnswerWaiter(s, s.waiters[i], j);
            && (t.None? <==> !Awaited(s.waiters[i + 1..], id) && !j.keep)
            && (t.Some? ==>
                  && t.value == s.(sent := s.sent + [WaitJobOk(s.waiters[i].socket, j.errorlevel)],
                                   waiters := RemoveAt(s.waiters, i))
                  && t.value.waiters[..i] == s.waiters[..i] && t.value.waiters[i..] == s.waiters[i + 1..]
                  && DistinctSockets(t.value.waiters)
                  && forall m :: 0 <= m < i ==> t.value.waiters[m].jobid != id)
  {
    SocketAt(s.waiters, i);
    var w := RemoveAt(s.waiters, i);
    RemoveAtElements(s.waiters, i);
    WholeAwaited(w, i, id);
    assert w[i..] == s.waiters[i + 1..];
  }

  lemma RemoveHalts(s: Server, socket: int, id: int, lost: set<int>)
    requires Core(s) && WaitOk(s, lost)
    ensures RemoveJob(s.jobs, socket, id).None? <==> RemovesAwaitedZero(s.jobs, id)
  {
    if !RemovesAwaited(s.jobs, id) {
      RemoveJobWait(s.jobs, socket, id);
    } else {
      RemoveAwaitedHalts(s.jobs, socket, Locate(s.jobs, id).k);
    }
  }

  lemma RemoveAwaitedHalts(s: Jobs, socket: int, k: nat)
    requires JobsOk(s) && k < |s.queue| && Awaited(s.waiters, s.queue[k].id) && DistinctSockets(s.waiters)
    requires Awaited(s.waiters, 0) ==> 0 in Ids(s.queue)
    ensures RemoveQueuedAt(s, socket, k).None? <==> s.queue[k].id == 0 && !s.queue[k].keep
    ensures RemoveQueuedAt(s, socket, k).Some? ==>
      RemoveQueuedAt(s, socket, k).value.waiters == if s.queue[k].id == 0 then Others(s.waiters, 0) else s.waiters
    ensures RemoveQueuedAt(s, socket, k).Some? ==>
      SameJobs(s.finished, RemoveQueuedAt(s, socket, k).value.finished)
  {
    var s1 := s.(queue := s.queue[k := Dropped(s.queue[k])], lastErrorlevel := -1);
    var t := NotifyAll(s1, s.queue[k].notifyTo, -1);
    NotifyAllSame(s1, s.queue[k].notifyTo, -1);
    IdsSame(s.queue, s1.queue);
    IdsSame(s1.queue, t.queue);
    assert SameJob(s1.queue[k], t.queue[k]);
    FindAt(t.queue, k);
    assert t.waiters[0..] == t.waiters && t.waiters[..0] == [];
    if s.queue[k].id == 0 {
      DoneInQueueHalts(t, 0, 0);
      if CheckNotify(t, 0).Some? { DoneInQueue(t, 0, 0); }
    } else {
      forall i | 0 <= i < |t.waiters| && t.waiters[i].jobid == 0
        ensures Find(t.queue, 0) >= 0 && !IsDone(t.queue[Find(t.queue, 0)].state)
      {
        assert s.waiters[i].jobid in Ids(t.queue);
        var m := Find(t.queue, 0);
        assert SameJob(s1.queue[m], t.queue[m]) && LiveJob(s.queue[m], s.nextId);
      }
      RemoveNotifiesNobody(t);
    }
  }

  /** The ids a job takes from the query are in range. */
  lemma TakenInRange(s: Jobs, k: nat, query: GpuQuery)
    requires s.build.Gpu? && QueryOk(query, s.build.total) && k < |s.queue|
    requires s.queue[k].waitFreeGpus && s.queue[k].numGpus != 0 && Tentative(s, s.queue[k], k, query).Some?
    ensures InRange(Tentative(s, s.queue[k], k, query).value.gpuIds, s.build.total)
  {
    UnclaimedPick(if k < |query.orders| then query.orders[k] else [], s.usedGpus, s.build.total);
  }

  lemma ClaimHalts(s: Jobs, t: Jobs, k: nat, query: GpuQuery)
    requires s.build.Gpu? && k < |s.queue| && k < |t.queue| && t.build == s.build
    requires Tentative(s, s.queue[k], k, query) == Some(t.queue[k])
    requires s.queue[k].waitFreeGpus && s.queue[k].numGpus != 0 ==> InRange(t.queue[k].gpuIds, s.build.total)
    ensures ClaimGpus(t.(busy := t.busy + t.queue[k].numSlots), t.queue[k]).None? <==>
              s.queue[k].numGpus != 0 && !s.queue[k].waitFreeGpus && !InRange(s.queue[k].gpuIds, s.build.total)
  {
  }

  lemma ChoiceHalts(s: Jobs, query: GpuQuery)
    requires s.build.Gpu? ==> QueryOk(query, s.build.total)
    ensures NextRunJob(s, query).None? <==> LaunchesForeignDevice(s, query)
  {
    if s.build.Gpu? && s.busy < s.maxSlots {
      ScanFirstFit(s, 0, query);
      ScanPick(s, 0, query);
      var (t, k) := Scan(s, 0, query);
      forall m | 0 <= m < |s.queue| ensures FirstIsForeign(s, m, query) ==> m == k {
      }
      assert LaunchesForeignDevice(s, query) <==> k >= 0 && FirstIsForeign(s, k, query);
      if k >= 0 {
        if s.queue[k].waitFreeGpus && s.queue[k].numGpus != 0 { TakenInRange(s, k, query); }
        ClaimHalts(s, t, k, query);
      }
    }
  }

  lemma LaunchHalts(s: Server, query: GpuQuery)
    requires Core(s) && DevicesOk(s, Launch(query))
    ensures LaunchOne(s, query).None? <==> LaunchesForeignDevice(s.jobs, query)
  {
    ChoiceHalts(s.jobs, query);
    if NextRunJob(s.jobs, query).Some? {
      Ops.NextRunJobOk(s.jobs, query);
      var (jobs, k) := NextRunJob(s.jobs, query).value;
      if k >= 0 {
        StartJobCore(s, jobs, k);
        WakeAllCore(StartJob(s.(jobs := jobs), k).value);
      }
    }
  }

  lemma RunningFound(s: Jobs, id: int)
    requires Distinct(s.queue) && JobRuns(s, id)
    ensures RunJobOk(s, id).Some?
  {
    var k :| 0 <= k < |s.queue| && s.queue[k].id == id && s.queue[k].state.Running?;
    FindAt(s.queue, k);
  }

  /** The server process ends at an event if and only if `Halts` holds of it. */
  lemma HaltsExactly(s: Server, e: Event, lost: set<int>)
    requires Core(s) && WaitOk(s, lost) && ClientOk(s, e) && DevicesOk(s, e)
    ensures Step(s, e).None? <==> Halts(s, e)
  {
    match e
    case Accept(_) =>
    case Launch(query) => LaunchHalts(s, query);
    case Read(i, m) =>
      if i < |s.conns| {
        match m
        case NewJobMsg(r) => EnqueueHalts(s, i, r, lost);
        case EndJobMsg(r) => EndHalts(s, i, r, lost);
        case UrgentMsg(id) => UrgentHalts(s.jobs, s.conns[i].socket, id);
        case RemoveJobMsg(id) => RemoveHalts(s, s.conns[i].socket, id, lost);
        case RunJobOkMsg => RunningFound(s.jobs, s.conns[i].jobid);
        case Unknown => if s.conns[i].hasJob { EndHalts(s, i, KILLED, lost); }
        case EndOfStream => if s.conns[i].hasJob { EndHalts(s, i, KILLED, lost); }
        case _ =>
      }
  }

  /** The same at every point of every run. No removal ends the server there: it would have to take out
      job 0, which is always the head of the queue. */
  lemma RunHaltsExactly(states: seq<Server>, evs: seq<Event>, n: nat, e: Event)
    requires IsRun(states, evs) && n < |states| && states[0].jobs.maxFinished >= 2
    requires ClientOk(states[n], e) && DevicesOk(states[n], e)
    ensures Step(states[n], e).None? <==> Halts(states[n], e)
    ensures e.Read? && e.msg.RemoveJobMsg? ==> !Halts(states[n], e)
  {
    RunCore(states, evs, n);
    RunWait(states, evs, n);
    RunZeroFirst(states, evs, n);
    HaltsExactly(states[n], e, LostUpTo(states, evs, n));
  }

  /** Job 0 is never removed from the queue: while it is there it is the head, and the request is refused. */
  lemma RunRefusesZero(states: seq<Server>, evs: seq<Event>, n: nat, socket: int, id: int)
    requires IsRun(states, evs) && n < |states|
    ensures var s := states[n].jobs;
            0 in Ids(s.queue) && (id == 0 || (id == -1 && s.queue[|s.queue| - 1].id == 0)) ==>
              RemoveJob(s, socket, id) == Some((SendLine(s, socket), -1))
  {
    RunCore(states, evs, n);
    RunZeroFirst(states, evs, n);
    var s := states[n].jobs;
    if 0 in Ids(s.queue) {
      var k :| 0 <= k < |s.queue| && s.queue[k].id == 0;
      FindAt(s.queue, k);
    }
  }

  /** Removing a job that clients wait for loses their wait, except for job 0: the waiters
      looked at are always those on job 0. Among all removals that the server survives, the
      list of lost jobs stays as it is for exactly the others. */
  lemma RemovalKeepsWaits(s: Server, i: nat, id: int, lost: set<int>)
    requires Core(s) && WaitOk(s, lost) && i < |s.conns| && ReadMsg(s, i, RemoveJobMsg(id)).Some?
    ensures WaitOk(ReadMsg(s, i, RemoveJobMsg(id)).value, lost) <==>
              !(RemovesAwaited(s.jobs, id) && s.jobs.queue[Locate(s.jobs, id).k].id != 0)
  {
    var socket := s.conns[i].socket;
    if !RemovesAwaited(s.jobs, id) {
      RemoveMsgWait(s, i, id, lost);
      assert lost + LostBy(s, Read(i, RemoveJobMsg(id))) == lost;
    } else {
      AwaitedRemoval(s, i, id, lost);
      var t := ReadMsg(s, i, RemoveJobMsg(id)).value;
      var removed := s.jobs.queue[Locate(s.jobs, id).k].id;
      if removed == 0 {
        ZeroRemovedWait(s, t, lost);
      } else {
        var m :| 0 <= m < |s.jobs.waiters| && s.jobs.waiters[m].jobid == removed;
        assert t.jobs.waiters[m].jobid !in Ids(t.jobs.queue);
      }
    }
  }

  /** What is left after the removal of an awaited job. */
  lemma AwaitedRemoval(s: Server, i: nat, id: int, lost: set<int>)
    requires Core(s) && WaitOk(s, lost) && i < |s.conns| && ReadMsg(s, i, RemoveJobMsg(id)).Some?
    requires RemovesAwaited(s.jobs, id)
    ensures var t := ReadMsg(s, i, RemoveJobMsg(id)).value;
            var removed := s.jobs.queue[Locate(s.jobs, id).k].id;
            && t.jobs.maxFinished == s.jobs.maxFinished && SameJobs(s.jobs.finished, t.jobs.finished)
            && t.jobs.waiters == (if removed == 0 then Others(s.jobs.waiters, 0) else s.jobs.waiters)
            && Ids(t.jobs.queue) == Ids(s.jobs.queue) - {removed} && t.jobs.nextId == s.jobs.nextId
            && t.conns == DropConns(s.conns, removed, 0)
  {
    var k := Locate(s.jobs, id).k;
    RemoveAwaitedHalts(s.jobs, s.conns[i].socket, k);
    Ops.RemoveJobOk(s.jobs, s.conns[i].socket, id);
    assert LiveJob(s.jobs.queue[k], s.jobs.nextId);
  }

  lemma ZeroRemovedWait(s: Server, t: Server, lost: set<int>)
    requires WaitOk(s, lost) && t.jobs.maxFinished == s.jobs.maxFinished && SameJobs(s.jobs.finished, t.jobs.finished)
    requires t.jobs.waiters == Others(s.jobs.waiters, 0) && t.jobs.nextId == s.jobs.nextId
    requires Ids(t.jobs.queue) == Ids(s.jobs.queue) - {0}
    requires t.conns == DropConns(s.conns, 0, 0)
    ensures WaitOk(t, lost)
  {
    OthersElements(s.jobs.waiters, 0);
    KeptSame(s.jobs.finished, t.jobs.finished);
    forall m | 0 <= m < |t.jobs.waiters|
      ensures IdleSocket(t.conns, t.jobs.waiters[m].socket) && t.jobs.waiters[m].jobid in Ids(t.jobs.queue) + lost
    {
      assert t.jobs.waiters[m] in s.jobs.waiters;
      IdleDrop(s.conns, 0, 0, t.jobs.waiters[m].socket);
    }
  }
}
