/** What a client that waits for a job is told over a whole run: nothing until the job ends, then
    once its errorlevel. */
module WaitRuns {
  import opened JobTypes
  import opened JobSpec
  import opened JobInvariant
  import opened ServerSpec
  import opened ServerInvariant
  import opened Waiting
  import opened FirstJob
  import opened ProtocolRuns
  import opened LifeCycle
  import opened WaitInvariant
  import opened Protocol
  import Ops = JobOperations

  /** How many answers to a wait went to this socket. */
  function Told(sent: seq<Sent>, socket: int): nat {
    if sent == [] then 0
    else
      var m := sent[|sent| - 1];
      Told(sent[..|sent| - 1], socket) + if m.WaitJobOk? && m.socket == socket then 1 else 0
  }

  lemma {:induction false} ToldConcat(a: seq<Sent>, b: seq<Sent>, socket: int)
    ensures Told(a + b, socket) == Told(a, socket) + Told(b, socket)
  {
    if b == [] {
      assert a + b == a;
    } else {
      assert (a + b)[..|a + b| - 1] == a + b[..|b| - 1];
      ToldConcat(a, b[..|b| - 1], socket);
    }
  }

  lemma ToldOther(a: seq<Sent>, m: Sent, socket: int)
    requires !(m.WaitJobOk? && m.socket == socket)
    ensures Told(a + [m], socket) == Told(a, socket)
  {
    assert (a + [m])[..|a|] == a;
  }

  /** The end of a job brings one answer to each socket that waits for it, and none to others. */
  lemma {:induction false} ToldAnswers(w: seq<Waiter>, id: int, e: int, socket: int)
    requires DistinctSockets(w)
    ensures Told(Answers(w, id, e), socket) == if Waiter(socket, id) in w then 1 else 0
    ensures Waiter(socket, id) in w ==> WaitJobOk(socket, e) in Answers(w, id, e)
  {
    if w == [] {
    } else {
      var first := if w[0].jobid == id then [WaitJobOk(w[0].socket, e)] else [];
      ToldAnswers(w[1..], id, e, socket);
      ToldConcat(first, Answers(w[1..], id, e), socket);
      assert w == [w[0]] + w[1..];
      assert [WaitJobOk(w[0].socket, e)][..0] == [];
      if w[0] == Waiter(socket, id) {
        assert forall m :: 0 <= m < |w[1..]| ==> w[1..][m].socket != socket;
      }
    }
  }

  lemma {:induction false} OthersKeep(w: seq<Waiter>, id: int, x: Waiter)
    requires x in w && x.jobid != id
    ensures x in Others(w, id)
  {
    if w[0] == x {
    } else {
      assert w == [w[0]] + w[1..];
      OthersKeep(w[1..], id, x);
    }
  }

  // ---- one event ----

  /** The event is a message, or the end, of the connection with this socket. */
  predicate IsFrom(s: Server, e: Event, socket: int) {
    e.Read? && e.index < |s.conns| && s.conns[e.index].socket == socket
  }

  /** The event ends the job `id`. */
  predicate Ends(s: Server, e: Event, id: int) {
    e.Read? && e.index < |s.conns| && s.conns[e.index].hasJob && s.conns[e.index].jobid == id
    && (e.msg.EndJobMsg? || e.msg.EndOfStream? || e.msg.Unknown?)
  }

  /** The errorlevel a job ends with. */
  function EndLevel(e: Event): int { if e.Read? && e.msg.EndJobMsg? then e.msg.result.errorlevel else -1 }

  /** Those who wait on this socket still do, nobody else came to, and nothing was answered. */
  ghost predicate Undisturbed(s: Jobs, t: Jobs, socket: int) {
    && (forall w :: w in s.waiters && w.socket == socket ==> w in t.waiters)
    && (Waits(t.waiters, socket) ==> Waits(s.waiters, socket))
    && Told(t.sent, socket) == Told(s.sent, socket)
  }

  lemma SameWaiters(s: Jobs, t: Jobs, m: Sent, socket: int)
    requires t.waiters == s.waiters && (t.sent == s.sent || t.sent == s.sent + [m])
    requires !(m.WaitJobOk? && m.socket == socket)
    ensures Undisturbed(s, t, socket)
  {
    ToldOther(s.sent, m, socket);
  }

  lemma EndTells(s: Server, i: nat, r: Result, lost: set<int>)
    requires Core(s) && WaitOk(s, lost) && i < |s.conns| && s.conns[i].hasJob && EndJob(s, i, r).Some?
    ensures var id := s.conns[i].jobid;
            var t := EndJob(s, i, r).value.jobs;
            && t.waiters == Others(s.jobs.waiters, id)
            && t.sent == s.jobs.sent + Answers(s.jobs.waiters, id, r.errorlevel)
            && Ids(t.queue) == Ids(s.jobs.queue) - {id}
  {
    EndAnswers(s, i, r, lost);
    HolderHasJob(s, i);
    var k := Find(s.jobs.queue, s.conns[i].jobid);
    EndUnfold(s.jobs, r, s.conns[i].jobid);
    JobsEnd(s.jobs, k, r);
    AfterEndFrame(s.jobs, k, r);
  }

  /** After the event that ends the job `id`, everybody who waited for it was told. */
  ghost predicate AllTold(s: Jobs, id: int, e: int, t: Jobs) {
    && t.waiters == Others(s.waiters, id) && t.sent == s.sent + Answers(s.waiters, id, e)
    && Ids(t.queue) == Ids(s.queue) - {id}
  }

  /** The cleanup after a disconnection does no more to the jobs than end the one that was held. */
  lemma DisappearJobs(s: Server, i: nat)
    requires i < |s.conns| && s.conns[i].hasJob && Disappear(s, i).Some?
    ensures EndJob(s, i, KILLED).Some? && Disappear(s, i).value.jobs == EndJob(s, i, KILLED).value.jobs
  {
  }

  lemma ReportEnds(s: Server, i: nat, r: Result)
    requires i < |s.conns|
    ensures Step(s, Read(i, EndJobMsg(r))) == EndJob(s, i, r)
  {
  }

  lemma StreamEnds(s: Server, i: nat)
    requires i < |s.conns|
    ensures Step(s, Read(i, EndOfStream)) == Disappear(s, i)
  {
  }

  lemma UnknownEnds(s: Server, i: nat)
    requires i < |s.conns|
    ensures Step(s, Read(i, Unknown)) == Disappear(s, i)
  {
  }

  lemma StepEnds(s: Server, e: Event, id: int, lost: set<int>)
    requires Core(s) && WaitOk(s, lost) && Step(s, e).Some? && Ends(s, e, id)
    ensures AllTold(s.jobs, id, EndLevel(e), Step(s, e).value.jobs)
  {
    if e.msg.EndJobMsg? {
      ReportEnds(s, e.index, e.msg.result);
      EndTells(s, e.index, e.msg.result, lost);
    } else {
      StreamEnds(s, e.index);
      UnknownEnds(s, e.index);
      DisappearJobs(s, e.index);
      EndTells(s, e.index, KILLED, lost);
    }
  }

  lemma EnqueueUndisturbed(s: Server, i: nat, r: Request, socket: int, lost: set<int>)
    requires Core(s) && WaitOk(s, lost) && i < |s.conns| && !s.conns[i].hasJob && s.conns[i].socket != socket
    requires !Waits(s.jobs.waiters, s.conns[i].socket) && EnqueueFor(s, i, r).Some?
    ensures Undisturbed(s.jobs, EnqueueFor(s, i, r).value.jobs, socket)
    ensures Ids(s.jobs.queue) <= Ids(EnqueueFor(s, i, r).value.jobs.queue)
  {
    var id := s.jobs.nextId;
    var c := Conn(s.conns[i].socket, true, id);
    Ops.NewJobOk(s.jobs, r);
    var jobs := NewJob(s.jobs, r).value;
    HeldSet(s.conns, i, c);
    HolderWait(s, i, jobs, id, lost);
    var s1 := s.(jobs := jobs, conns := s.conns[i := c]);
    var k := Find(jobs.queue, id);
    if !(k >= 0 && jobs.queue[k].state.HoldingClient?) {
      SameWaiters(s.jobs, Send(s1, NewJobOk(c.socket, id)).jobs, NewJobOk(c.socket, id), socket);
    } else if r.waitEnqueuing {
      SameWaiters(s.jobs, s1.jobs, NewJobOk(c.socket, id), socket);
    } else {
      RefusedUndisturbed(s1, i, NewJobNok(c.socket, id), socket, lost);
      SameWaiters(s.jobs, Send(s1, NewJobNok(c.socket, id)).jobs, NewJobNok(c.socket, id), socket);
    }
  }

  lemma RefusedUndisturbed(s: Server, i: nat, m: Sent, socket: int, lost: set<int>)
    requires Core(s) && WaitOk(s, lost) && i < |s.conns| && s.conns[i].hasJob && Disappear(Send(s, m), i).Some?
    requires !Awaited(s.jobs.waiters, s.conns[i].jobid)
    ensures var t := Disappear(Send(s, m), i).value.jobs;
            && t.waiters == s.jobs.waiters && t.sent == s.jobs.sent + [m]
            && Ids(t.queue) == Ids(s.jobs.queue) - {s.conns[i].jobid}
  {
    var u := Send(s, m);
    EndTells(u, i, KILLED, lost);
    OthersNone(u.jobs.waiters, s.conns[i].jobid);
  }

  lemma RemoveUndisturbed(s: Server, i: nat, id: int, socket: int, lost: set<int>)
    requires Core(s) && WaitOk(s, lost) && ZeroFirst(s.jobs.queue) && i < |s.conns|
    requires ReadMsg(s, i, RemoveJobMsg(id)).Some?
    ensures var t := ReadMsg(s, i, RemoveJobMsg(id)).value.jobs;
            && Undisturbed(s.jobs, t, socket)
            && forall w :: w in s.jobs.waiters ==>
                 w.jobid in Ids(s.jobs.queue) - LostBy(s, Read(i, RemoveJobMsg(id))) ==> w.jobid in Ids(t.queue)
  {
    var (t, removed) := RemoveJob(s.jobs, s.conns[i].socket, id).value;
    RemoveJobWait(s.jobs, s.conns[i].socket, id);
    Ops.RemoveJobOk(s.jobs, s.conns[i].socket, id);
    SameWaiters(s.jobs, t, t.sent[|s.jobs.sent|], socket);
    forall w | w in s.jobs.waiters && w.jobid in Ids(s.jobs.queue) - LostBy(s, Read(i, RemoveJobMsg(id)))
      ensures w.jobid in Ids(t.queue)
    {
      if w.jobid == removed { RemovedQueued(s.jobs, s.conns[i].socket, id, removed); }
    }
  }

  lemma RemovedQueued(s: Jobs, socket: int, id: int, removed: int)
    requires JobsOk(s) && RemoveJob(s, socket, id).Some? && RemoveJob(s, socket, id).value.1 == removed
    requires removed in Ids(s.queue) && Awaited(s.waiters, removed)
    ensures RemovesAwaited(s, id) && s.queue[Locate(s, id).k].id == removed
  {
    var i :| 0 <= i < |s.queue| && s.queue[i].id == removed;
    assert LiveJob(s.queue[i], s.nextId);
    assert forall f :: 0 <= f < |s.finished| ==> s.finished[f].id in Ids(s.finished);
  }

  lemma WaitMsgUndisturbed(s: Server, i: nat, m: Msg, socket: int)
    requires i < |s.conns| && s.conns[i].socket != socket && (m.WaitJobMsg? || m.WaitRunningJobMsg?)
    requires ReadMsg(s, i, m).Some?
    ensures Undisturbed(s.jobs, ReadMsg(s, i, m).value.jobs, socket)
    ensures ReadMsg(s, i, m).value.jobs.queue == s.jobs.queue
  {
    var t := ReadMsg(s, i, m).value.jobs;
    if |t.sent| > |s.jobs.sent| { ToldOther(s.jobs.sent, t.sent[|s.jobs.sent|], socket); }
  }

  lemma OrderUndisturbed(s: Server, i: nat, m: Msg, socket: int)
    requires Core(s) && i < |s.conns| && (m.UrgentMsg? || m.SwapJobsMsg?) && ReadMsg(s, i, m).Some?
    ensures Undisturbed(s.jobs, ReadMsg(s, i, m).value.jobs, socket)
    ensures Ids(ReadMsg(s, i, m).value.jobs.queue) == Ids(s.jobs.queue)
  {
    var t := ReadMsg(s, i, m).value.jobs;
    if m.UrgentMsg? {
      Ops.MoveUrgentOk(s.jobs, s.conns[i].socket, m.id);
    } else {
      Ops.SwapJobsOk(s.jobs, s.conns[i].socket, m.id1, m.id2);
    }
    SameWaiters(s.jobs, t, t.sent[|s.jobs.sent|], socket);
  }

  lemma HarmlessUndisturbed(s: Server, i: nat, m: Msg, socket: int)
    requires i < |s.conns| && Harmless(m) && !m.WaitJobMsg? && !m.WaitRunningJobMsg? && ReadMsg(s, i, m).Some?
    ensures Undisturbed(s.jobs, ReadMsg(s, i, m).value.jobs, socket)
    ensures ReadMsg(s, i, m).value.jobs.queue == s.jobs.queue
  {
    SameWaiters(s.jobs, ReadMsg(s, i, m).value.jobs, Answer(s.conns[i].socket), socket);
  }

  lemma LeaveUndisturbed(s: Server, i: nat, socket: int)
    requires i < |s.conns| && !s.conns[i].hasJob && s.conns[i].socket != socket && Disappear(s, i).Some?
    ensures Undisturbed(s.jobs, Disappear(s, i).value.jobs, socket)
    ensures Disappear(s, i).value.jobs.queue == s.jobs.queue
  {
    var k := FindSocket(s.jobs.waiters, s.conns[i].socket);
    if k >= 0 {
      var r := RemoveAt(s.jobs.waiters, k);
      RemoveAtElements(s.jobs.waiters, k);
      forall w | w in s.jobs.waiters && w.socket == socket ensures w in r {
        var m :| 0 <= m < |s.jobs.waiters| && s.jobs.waiters[m] == w;
        assert r[if m < k then m else m - 1] == w;
      }
    }
  }

  lemma {:induction false} WakeTold(s: Server, socket: int)
    requires WakeAll(s).Some?
    ensures Told(WakeAll(s).value.jobs.sent, socket) == Told(s.jobs.sent, socket)
    decreases Holding(s.jobs.queue)
  {
    var k := FindHolding(s.jobs.queue);
    if k < 0 {
    } else {
      var j := s.jobs.queue[k];
      HoldingUpdate(s.jobs.queue, k, Woken(j));
      var m := NewJobOk(s.conns[ConnOf(s.conns, j.id)].socket, j.id);
      ToldOther(s.jobs.sent, m, socket);
      WakeTold(Send(s.(jobs := WakeHoldClient(s.jobs).0), m), socket);
    }
  }

  lemma LaunchUndisturbed(s: Server, query: GpuQuery, socket: int)
    requires Core(s) && LaunchOne(s, query).Some?
    ensures Undisturbed(s.jobs, LaunchOne(s, query).value.jobs, socket)
    ensures Ids(LaunchOne(s, query).value.jobs.queue) == Ids(s.jobs.queue)
  {
    var t := LaunchOne(s, query).value.jobs;
    LaunchFrame(s, query);
    LaunchOrder(s, query);
    IdsSame(s.jobs.queue, t.queue);
    var (jobs, k) := NextRunJob(s.jobs, query).value;
    if k >= 0 {
      var u := StartJob(s.(jobs := jobs), k).value;
      SameWaiters(s.jobs, u.jobs, u.jobs.sent[|s.jobs.sent|], socket);
      WakeTold(u, socket);
    }
  }

  /** An event that comes from another connection and ends no job leaves the waits of this socket alone. */
  lemma StepUndisturbed(s: Server, e: Event, socket: int, lost: set<int>)
    requires Core(s) && WaitOk(s, lost) && ZeroFirst(s.jobs.queue) && ClientOk(s, e) && Step(s, e).Some?
    requires !IsFrom(s, e, socket) && forall id :: !Ends(s, e, id)
    ensures var t := Step(s, e).value.jobs;
            && Undisturbed(s.jobs, t, socket)
            && forall w :: w in s.jobs.waiters && w.jobid in Ids(s.jobs.queue) - LostBy(s, e) ==>
                 w.jobid in Ids(t.queue)
  {
    match e
    case Accept(_) =>
    case Launch(query) => LaunchUndisturbed(s, query, socket);
    case Read(i, m) =>
      if i < |s.conns| {
        assert !Ends(s, e, s.conns[i].jobid);
        ReadUndisturbed(s, i, m, socket, lost);
      }
  }

  lemma ReadUndisturbed(s: Server, i: nat, m: Msg, socket: int, lost: set<int>)
    requires Core(s) && WaitOk(s, lost) && ZeroFirst(s.jobs.queue) && i < |s.conns| && ClientOk(s, Read(i, m))
    requires ReadMsg(s, i, m).Some? && s.conns[i].socket != socket
    requires s.conns[i].hasJob ==> !(m.EndJobMsg? || m.EndOfStream? || m.Unknown?)
    ensures var t := ReadMsg(s, i, m).value.jobs;
            && Undisturbed(s.jobs, t, socket)
            && forall w :: w in s.jobs.waiters && w.jobid in Ids(s.jobs.queue) - LostBy(s, Read(i, m)) ==>
                 w.jobid in Ids(t.queue)
  {
    if m.WaitJobMsg? || m.WaitRunningJobMsg? {
      WaitMsgUndisturbed(s, i, m, socket);
    } else if Harmless(m) {
      HarmlessUndisturbed(s, i, m, socket);
    } else if m.UrgentMsg? || m.SwapJobsMsg? {
      OrderUndisturbed(s, i, m, socket);
    } else if m.ClosingQuery? || m.Info? {
      ClosingFrame(s, i, m);
      SameWaiters(s.jobs, ReadMsg(s, i, m).value.jobs, Answer(s.conns[i].socket), socket);
    } else {
      match m
      case NewJobMsg(r) => EnqueueUndisturbed(s, i, r, socket, lost);
      case RemoveJobMsg(id) => RemoveUndisturbed(s, i, id, socket, lost);
      case Unknown => LeaveUndisturbed(s, i, socket);
      case EndOfStream => LeaveUndisturbed(s, i, socket);
    }
  }

  /** A waiting client sends nothing; all that can come from it is the end of its connection. */
  predicate Leaves(s: Server, e: Event, socket: int) { IsFrom(s, e, socket) && e.msg.EndOfStream? }

  lemma WaiterIsSilent(s: Server, e: Event, w: Waiter, lost: set<int>)
    requires Core(s) && WaitOk(s, lost) && ClientOk(s, e) && w in s.jobs.waiters && IsFrom(s, e, w.socket)
    ensures Leaves(s, e, w.socket) && !s.conns[e.index].hasJob
  {
    var m :| 0 <= m < |s.jobs.waiters| && s.jobs.waiters[m] == w;
    assert IdleSocket(s.conns, s.jobs.waiters[m].socket);
    var c :| 0 <= c < |s.conns| && s.conns[c].socket == w.socket && !s.conns[c].hasJob;
    assert c == e.index;
  }

  /** The event answers the waiter: it ends the job, and sends the errorlevel to its socket, once. */
  ghost predicate TellsWaiter(s: Server, e: Event, t: Server, w: Waiter) {
    && w in s.jobs.waiters && Ends(s, e, w.jobid) && w.jobid !in Ids(t.jobs.queue)
    && !Waits(t.jobs.waiters, w.socket)
    && t.jobs.sent == s.jobs.sent + Answers(s.jobs.waiters, w.jobid, EndLevel(e))
    && WaitJobOk(w.socket, EndLevel(e)) in Answers(s.jobs.waiters, w.jobid, EndLevel(e))
    && Told(t.jobs.sent, w.socket) == Told(s.jobs.sent, w.socket) + 1
  }

  lemma EndAnswersWaiter(s: Server, e: Event, w: Waiter, lost: set<int>)
    requires Core(s) && WaitOk(s, lost) && Step(s, e).Some? && w in s.jobs.waiters && Ends(s, e, w.jobid)
    ensures TellsWaiter(s, e, Step(s, e).value, w)
  {
    StepEnds(s, e, w.jobid, lost);
    OthersElements(s.jobs.waiters, w.jobid);
    var answers := Answers(s.jobs.waiters, w.jobid, EndLevel(e));
    ToldAnswers(s.jobs.waiters, w.jobid, EndLevel(e), w.socket);
    ToldConcat(s.jobs.sent, answers, w.socket);
    var rest := Others(s.jobs.waiters, w.jobid);
    forall m | 0 <= m < |rest| ensures rest[m].socket != w.socket {
      assert rest[m] in s.jobs.waiters && rest[m] != w;
    }
  }

  lemma EndSparesWaiter(s: Server, e: Event, w: Waiter, id: int, lost: set<int>)
    requires Core(s) && WaitOk(s, lost) && Step(s, e).Some? && w in s.jobs.waiters && Ends(s, e, id) && id != w.jobid
    ensures var t := Step(s, e).value.jobs;
            && w in t.waiters && Told(t.sent, w.socket) == Told(s.jobs.sent, w.socket)
            && (w.jobid in Ids(s.jobs.queue) ==> w.jobid in Ids(t.queue))
  {
    StepEnds(s, e, id, lost);
    OthersKeep(s.jobs.waiters, id, w);
    ToldAnswers(s.jobs.waiters, id, EndLevel(e), w.socket);
    ToldConcat(s.jobs.sent, Answers(s.jobs.waiters, id, EndLevel(e)), w.socket);
    assert Waiter(w.socket, id) !in s.jobs.waiters;
  }

  /** One event either answers a waiter that does not leave, or leaves its wait alone. */
  lemma StepWaiter(s: Server, e: Event, w: Waiter, lost: set<int>)
    requires Core(s) && WaitOk(s, lost) && ZeroFirst(s.jobs.queue) && ClientOk(s, e) && Step(s, e).Some?
    requires w in s.jobs.waiters && w.jobid in Ids(s.jobs.queue) - LostBy(s, e) && !Leaves(s, e, w.socket)
    ensures var t := Step(s, e).value;
            if w.jobid in Ids(t.jobs.queue)
            then w in t.jobs.waiters && Told(t.jobs.sent, w.socket) == Told(s.jobs.sent, w.socket)
            else TellsWaiter(s, e, t, w)
  {
    if IsFrom(s, e, w.socket) { WaiterIsSilent(s, e, w, lost); }
    if Ends(s, e, w.jobid) {
      EndAnswersWaiter(s, e, w, lost);
    } else if exists id :: Ends(s, e, id) {
      var id :| Ends(s, e, id);
      EndSparesWaiter(s, e, w, id, lost);
    } else {
      StepUndisturbed(s, e, w.socket, lost);
    }
  }

  // ---- whole runs ----

  /** The client keeps its connection, and nobody removes the job it waits for. */
  ghost predicate Patient(states: seq<Server>, evs: seq<Event>, n: nat, m: nat, w: Waiter)
    requires n <= m <= |evs| <= |states|
  {
    && (forall k :: n <= k < m ==> !Leaves(states[k], evs[k], w.socket))
    && (forall k :: 0 <= k < m ==> w.jobid !in LostBy(states[k], evs[k]))
  }

  /** The event at `k` answers the waiter, which was told nothing since the point `n`. */
  ghost predicate AnsweredAt(states: seq<Server>, evs: seq<Event>, n: nat, k: nat, w: Waiter)
    requires n <= k < |evs| < |states|
  {
    && TellsWaiter(states[k], evs[k], states[k + 1], w)
    && Told(states[k].jobs.sent, w.socket) == Told(states[n].jobs.sent, w.socket)
  }

  /** Between the points `n` and `m` the waiter was answered: at one event, and not before. */
  ghost predicate AnsweredOnce(states: seq<Server>, evs: seq<Event>, n: nat, m: nat, w: Waiter)
    requires n <= m <= |evs| < |states|
  {
    exists k :: n <= k < m && AnsweredAt(states, evs, n, k, w)
  }

  /** As long as the job is queued the client waits and is told nothing. */
  ghost predicate StillWaits(states: seq<Server>, n: nat, m: nat, w: Waiter)
    requires n <= m < |states|
  {
    w in states[m].jobs.waiters && Told(states[m].jobs.sent, w.socket) == Told(states[n].jobs.sent, w.socket)
  }

  /** No wait is lost: as long as the job is queued the client waits and is told nothing; when the job
      is gone, the client was told the errorlevel it ended with, exactly once. */
  lemma {:induction false} RunAnswered(states: seq<Server>, evs: seq<Event>, n: nat, m: nat, w: Waiter)
    requires IsRun(states, evs) && states[0].jobs.maxFinished >= 2 && n <= m < |states|
    requires w in states[n].jobs.waiters && Patient(states, evs, n, m, w)
    ensures if w.jobid in Ids(states[m].jobs.queue) then StillWaits(states, n, m, w)
            else AnsweredOnce(states, evs, n, m, w)
    decreases m - n
  {
    if m == n {
      WaitsForQueued(states, evs, n, w);
    } else {
      PatientBefore(states, evs, n, m - 1, w);
      RunAnswered(states, evs, n, m - 1, w);
      NextAnswered(states, evs, n, m - 1, w);
    }
  }

  lemma PatientBefore(states: seq<Server>, evs: seq<Event>, n: nat, l: nat, w: Waiter)
    requires n <= l < |evs| <= |states| && Patient(states, evs, n, l + 1, w)
    ensures Patient(states, evs, n, l, w) == true
  {
  }

  lemma NextAnswered(states: seq<Server>, evs: seq<Event>, n: nat, l: nat, w: Waiter)
    requires IsRun(states, evs) && states[0].jobs.maxFinished >= 2 && n <= l < |evs|
    requires w in states[n].jobs.waiters && Patient(states, evs, n, l + 1, w)
    requires if w.jobid in Ids(states[l].jobs.queue) then StillWaits(states, n, l, w)
             else AnsweredOnce(states, evs, n, l, w)
    ensures if w.jobid in Ids(states[l + 1].jobs.queue) then StillWaits(states, n, l + 1, w)
            else AnsweredOnce(states, evs, n, l + 1, w)
  {
    if w.jobid in Ids(states[l].jobs.queue) {
      AnsweredNow(states, evs, n, l, w);
      if w.jobid !in Ids(states[l + 1].jobs.queue) { assert AnsweredAt(states, evs, n, l, w) == true; }
    } else {
      AnsweredStays(states, evs, n, l, w);
      WaitsForQueued(states, evs, n, w);
      StaysGone(states, evs, n, l, w.jobid);
    }
  }

  lemma WaitsForQueued(states: seq<Server>, evs: seq<Event>, n: nat, w: Waiter)
    requires IsRun(states, evs) && states[0].jobs.maxFinished >= 2 && n < |states| && w in states[n].jobs.waiters
    requires forall k :: 0 <= k < n ==> w.jobid !in LostBy(states[k], evs[k])
    ensures w.jobid in Ids(states[n].jobs.queue)
  {
    RunWait(states, evs, n);
    NotLostYet(states, evs, n, w.jobid);
  }

  lemma AnsweredStays(states: seq<Server>, evs: seq<Event>, n: nat, l: nat, w: Waiter)
    requires n <= l < |evs| < |states| && AnsweredOnce(states, evs, n, l, w)
    ensures AnsweredOnce(states, evs, n, l + 1, w)
  {
    var k :| n <= k < l && AnsweredAt(states, evs, n, k, w);
    assert n <= k < l + 1 && AnsweredAt(states, evs, n, k, w);
  }

  lemma AnsweredNow(states: seq<Server>, evs: seq<Event>, n: nat, l: nat, w: Waiter)
    requires IsRun(states, evs) && states[0].jobs.maxFinished >= 2 && n <= l < |evs|
    requires Patient(states, evs, n, l + 1, w) && w.jobid in Ids(states[l].jobs.queue) && StillWaits(states, n, l, w)
    ensures if w.jobid in Ids(states[l + 1].jobs.queue) then StillWaits(states, n, l + 1, w)
            else AnsweredAt(states, evs, n, l, w)
  {
    RunWait(states, evs, l);
    RunCore(states, evs, l);
    RunZeroFirst(states, evs, l);
    assert ClientOk(states[l], evs[l]) && Step(states[l], evs[l]) == Some(states[l + 1]);
    StepWaiter(states[l], evs[l], w, LostUpTo(states, evs, l));
  }

  /** A job that left the queue never comes back. */
  lemma StaysGone(states: seq<Server>, evs: seq<Event>, n: nat, l: nat, id: int)
    requires IsRun(states, evs) && n <= l < |evs|
    requires id in Ids(states[n].jobs.queue) && id !in Ids(states[l].jobs.queue)
    ensures id !in Ids(states[l + 1].jobs.queue)
  {
    RunCore(states, evs, n);
    QueuedIsOld(states[n].jobs, id);
    RunForward(states, evs, n, l);
    RunForward(states, evs, l, l + 1);
    assert StateOf(states[l].jobs.queue, id) == None;
    assert StateOf(states[l + 1].jobs.queue, id) == None;
  }

  lemma QueuedIsOld(s: Jobs, id: int)
    requires JobsOk(s) && id in Ids(s.queue)
    ensures id < s.nextId
  {
    var k :| 0 <= k < |s.queue| && s.queue[k].id == id;
    assert LiveJob(s.queue[k], s.nextId);
  }

  lemma {:induction false} NotLostYet(states: seq<Server>, evs: seq<Event>, n: nat, id: int)
    requires n <= |evs| <= |states| && forall k :: 0 <= k < n ==> id !in LostBy(states[k], evs[k])
    ensures id !in LostUpTo(states, evs, n)
  {
    if n == 0 {
    } else {
      NotLostYet(states, evs, n - 1, id);
    }
  }
}
