/** `MailOk` is kept by every step of every run. */
module ProtocolRuns {
  import opened JobTypes
  import opened JobSpec
  import opened JobInvariant
  import opened ServerSpec
  import opened ServerInvariant
  import opened Protocol
  import opened Waiting
  import Ops = JobOperations

  // ---- states after the operations of jobs.c ----

  lemma EndStates(s: Jobs, r: Result, id: int)
    requires JobsOk(s) && JobFinished(s, r, id).Some? && CheckNotify(JobFinished(s, r, id).value, id).Some?
    ensures var t := CheckNotify(JobFinished(s, r, id).value, id).value;
            && t.nextId == s.nextId && Quiet(s.sent, t.sent)
            && forall x :: StateOf(t.queue, x) == if x == id then None else StateOf(s.queue, x)
  {
    var k := Find(s.queue, id);
    EndUnfold(s, r, id);
    var u := AfterEnd(s, k, r);
    var s1 := FreeGpus(s, s.queue[k]).value;
    NotifyAllSame(RecordEnd(s1, k, r), s.queue[k].notifyTo, r.errorlevel);
    Ops.RemoveSame(s.queue, u.queue, k);
    var t1 := JobFinished(s, r, id).value;
    CheckNotifyQuiet(t1, id, 0);
    forall x ensures StateOf(RemoveAt(u.queue, k), x) == if x == id then None else StateOf(s.queue, x) {
      StateRemove(s.queue, k, x);
      StateSame(RemoveAt(s.queue, k), RemoveAt(u.queue, k), x);
    }
  }

  lemma NewJobStates(s: Jobs, r: Request)
    requires JobsOk(s) && NewJob(s, r).Some?
    ensures var t := NewJob(s, r).value;
            && t.sent == s.sent
            && forall x :: StateOf(t.queue, x) ==
                 if x == s.nextId then Some(Enqueued(s, r).state) else StateOf(s.queue, x)
  {
    Ops.NewJobOk(s, r);
    var t := NewJob(s, r).value;
    var n := |s.queue|;
    forall x ensures StateOf(t.queue, x) == if x == s.nextId then Some(Enqueued(s, r).state) else StateOf(s.queue, x) {
      if x == s.nextId {
        FindAt(t.queue, n);
      } else {
        StateSame(s.queue, t.queue[..n], x);
        var k := Find(t.queue[..n], x);
        if k >= 0 {
          FindAt(t.queue, k);
        } else {
          assert forall i :: 0 <= i < n ==> t.queue[..n][i] == t.queue[i];
        }
      }
    }
  }

  lemma RemoveStates(s: Jobs, socket: int, id: int)
    requires JobsOk(s) && RemoveJob(s, socket, id).Some?
    ensures var (t, removed) := RemoveJob(s, socket, id).value;
            && t.nextId == s.nextId && Quiet(s.sent, t.sent)
            && forall x :: StateOf(t.queue, x) == if x == removed then None else StateOf(s.queue, x)
  {
    match Locate(s, id)
    case Nowhere => MinusOneAbsent(s);
    case InQueue(k) =>
      if k == 0 || s.queue[k].state.Running? { MinusOneAbsent(s); } else { RemoveQueuedStates(s, socket, k); }
    case InFinished(k) => RemoveFinishedStates(s, socket, k);
  }

  lemma MinusOneAbsent(s: Jobs)
    requires JobsOk(s)
    ensures StateOf(s.queue, -1) == None
  {
  }

  lemma RemoveQueuedStates(s: Jobs, socket: int, k: nat)
    requires JobsOk(s) && k < |s.queue| && RemoveQueuedAt(s, socket, k).Some?
    ensures var t := RemoveQueuedAt(s, socket, k).value;
            && t.nextId == s.nextId && Quiet(s.sent, t.sent)
            && forall x :: StateOf(t.queue, x) == if x == s.queue[k].id then None else StateOf(s.queue, x)
  {
    var s1 := s.(queue := s.queue[k := Dropped(s.queue[k])], lastErrorlevel := -1);
    var u := NotifyAll(s1, s.queue[k].notifyTo, -1);
    NotifyAllSame(s1, s.queue[k].notifyTo, -1);
    Ops.RemoveSame(s.queue, u.queue, k);
    CheckNotifyQuiet(u, 0, 0);
    var v := CheckNotify(u, 0).value;
    QuietAppend(v.sent, RemoveJobOk(socket));
    QuietTransitive(s.sent, v.sent, v.sent + [RemoveJobOk(socket)]);
    forall x ensures StateOf(RemoveAt(u.queue, k), x) == if x == s.queue[k].id then None else StateOf(s.queue, x) {
      StateRemove(s.queue, k, x);
      StateSame(RemoveAt(s.queue, k), RemoveAt(u.queue, k), x);
    }
  }

  lemma RemoveFinishedStates(s: Jobs, socket: int, k: nat)
    requires JobsOk(s) && k < |s.finished| && RemoveFinishedAt(s, socket, k).Some?
    ensures var t := RemoveFinishedAt(s, socket, k).value;
            && t.nextId == s.nextId && Quiet(s.sent, t.sent)
            && forall x :: StateOf(t.queue, x) == if x == s.finished[k].id then None else StateOf(s.queue, x)
  {
    var s1 := s.(finished := s.finished[k := Dropped(s.finished[k])], lastErrorlevel := -1);
    var u := NotifyAll(s1, s.finished[k].notifyTo, -1);
    NotifyAllSame(s1, s.finished[k].notifyTo, -1);
    CheckNotifyQuiet(u, 0, 0);
    var v := CheckNotify(u, 0).value;
    QuietAppend(v.sent, RemoveJobOk(socket));
    QuietTransitive(s.sent, v.sent, v.sent + [RemoveJobOk(socket)]);
    assert s.finished[k].id in Ids(s.finished);
    forall x ensures StateOf(u.queue, x) == if x == s.finished[k].id then None else StateOf(s.queue, x) {
      StateSame(s.queue, u.queue, x);
      if x == s.finished[k].id { assert x !in Ids(s.queue); }
    }
  }

  // ---- the messages ----

  lemma EndJobMail(s: Server, i: nat, r: Result)
    requires Core(s) && MailOk(s) && i < |s.conns| && s.conns[i].hasJob && EndJob(s, i, r).Some?
    ensures MailOk(EndJob(s, i, r).value)
  {
    var id := s.conns[i].jobid;
    var t := EndJob(s, i, r).value;
    HolderHasJob(s, i);
    assert LiveJob(s.jobs.queue[Find(s.jobs.queue, id)], s.jobs.nextId);
    EndStates(s.jobs, r, id);
    HeldClear(s.conns, i);
    forall x | x != id && StateOf(s.jobs.queue, x).Some? ensures SocketOf(t.conns, x) == SocketOf(s.conns, x) {
      SocketUpdate(s.conns, i, t.conns[i], x);
    }
    MailKept(s, t, id);
  }

  lemma RemoveConnectionMail(s: Server, i: nat)
    requires Core(s) && MailOk(s) && i < |s.conns| && !s.conns[i].hasJob
    ensures RemoveConnection(s, i).Some? && MailOk(RemoveConnection(s, i).value)
  {
    var t := RemoveConnection(s, i).value;
    forall x | StateOf(s.jobs.queue, x).Some? ensures SocketOf(t.conns, x) == SocketOf(s.conns, x) {
      SocketRemove(s.conns, i, x);
    }
    MailUnmoved(s, t);
  }

  lemma DisappearMail(s: Server, i: nat)
    requires Core(s) && MailOk(s) && i < |s.conns| && Disappear(s, i).Some?
    ensures MailOk(Disappear(s, i).value)
  {
    if s.conns[i].hasJob {
      EndJobMail(s, i, KILLED);
      EndJobCore(s, i, KILLED);
      RemoveConnectionMail(EndJob(s, i, KILLED).value, i);
    } else {
      var t := s.(jobs := s.jobs.(waiters := RemoveNotification(s.jobs.waiters, s.conns[i].socket)));
      MailUnmoved(s, t);
      RemoveConnectionMail(t, i);
    }
  }

  /** The state in which a new job is in the queue and its client not yet answered. */
  ghost predicate MailButNew(jobs: Jobs, conns: seq<Conn>, newId: int) {
    && (forall id :: id != newId ==> MailFor(jobs, conns, id))
    && Mail(jobs.sent, newId) == []
  }

  lemma EnqueuedMail(s: Server, i: nat, r: Request)
    requires Core(s) && MailOk(s) && i < |s.conns| && !s.conns[i].hasJob && NewJob(s.jobs, r).Some?
    ensures var jobs := NewJob(s.jobs, r).value;
            var conns := s.conns[i := Conn(s.conns[i].socket, true, s.jobs.nextId)];
            && Core(s.(jobs := jobs, conns := conns))
            && MailButNew(jobs, conns, s.jobs.nextId)
            && StateOf(jobs.queue, s.jobs.nextId) == Some(Enqueued(s.jobs, r).state)
            && SocketOf(conns, s.jobs.nextId) == Some(s.conns[i].socket)
  {
    var newId := s.jobs.nextId;
    var c := Conn(s.conns[i].socket, true, newId);
    NewJobStates(s.jobs, r);
    Ops.NewJobOk(s.jobs, r);
    HeldSet(s.conns, i, c);
    var jobs := NewJob(s.jobs, r).value;
    var conns := s.conns[i := c];
    SocketUpdate(s.conns, i, c, newId);
    assert MailFor(s.jobs, s.conns, newId) by { assert newId !in Ids(s.jobs.queue); }
    assert StateOf(s.jobs.queue, newId) == None by { assert newId !in Ids(s.jobs.queue); }
    forall id | id != newId ensures MailFor(jobs, conns, id) {
      assert MailFor(s.jobs, s.conns, id);
      SocketUpdate(s.conns, i, c, id);
    }
  }

  /** The answer that completes `MailOk` again. */
  lemma AnswerMail(jobs: Jobs, conns: seq<Conn>, newId: int, m: Sent)
    requires MailButNew(jobs, conns, newId) && IsMail(m) && m.id == newId
    ensures forall id :: id != newId ==> MailFor(jobs.(sent := jobs.sent + [m]), conns, id)
    ensures Mail(jobs.sent + [m], newId) == [m]
  {
    MailAppend(jobs.sent, m, newId);
    forall id | id != newId ensures MailFor(jobs.(sent := jobs.sent + [m]), conns, id) {
      assert MailFor(jobs, conns, id);
      MailAppend(jobs.sent, m, id);
    }
  }

  /** When the job without proper mail leaves the queue after its refusal, the exchange is complete. */
  lemma RefusedMail(s: Server, t: Server, newId: int)
    requires forall id :: id != newId ==> MailFor(s.jobs, s.conns, id)
    requires |Mail(s.jobs.sent, newId)| == 1 && Mail(s.jobs.sent, newId)[0].NewJobNok?
    requires Mail(s.jobs.sent, newId)[0].id == newId
    requires 0 <= newId < s.jobs.nextId == t.jobs.nextId && Quiet(s.jobs.sent, t.jobs.sent)
    requires forall id :: StateOf(t.jobs.queue, id) == if id == newId then None else StateOf(s.jobs.queue, id)
    requires forall id :: id != newId && StateOf(s.jobs.queue, id).Some? ==>
               SocketOf(t.conns, id) == SocketOf(s.conns, id)
    ensures MailOk(t)
  {
    forall id ensures MailFor(t.jobs, t.conns, id) {
      QuietMail(s.jobs.sent, t.jobs.sent, id);
      if id != newId { assert MailFor(s.jobs, s.conns, id); }
    }
  }

  lemma RefuseMail(s: Server, i: nat, newId: int)
    requires Core(s) && i < |s.conns| && s.conns[i].hasJob && s.conns[i].jobid == newId && Disappear(s, i).Some?
    requires forall id :: id != newId ==> MailFor(s.jobs, s.conns, id)
    requires |Mail(s.jobs.sent, newId)| == 1 && Mail(s.jobs.sent, newId)[0].NewJobNok?
    requires Mail(s.jobs.sent, newId)[0].id == newId
    ensures MailOk(Disappear(s, i).value)
  {
    HolderHasJob(s, i);
    assert LiveJob(s.jobs.queue[Find(s.jobs.queue, newId)], s.jobs.nextId);
    EndStates(s.jobs, KILLED, newId);
    HeldClear(s.conns, i);
    EndJobCore(s, i, KILLED);
    var t := EndJob(s, i, KILLED).value;
    forall x | x != newId ensures SocketOf(t.conns, x) == SocketOf(s.conns, x) {
      SocketUpdate(s.conns, i, t.conns[i], x);
    }
    RefusedMail(s, t, newId);
    RemoveConnectionMail(t, i);
  }

  /** The newest job, that of connection `i`, is refused. */
  lemma RefuseNewMail(s: Server, i: nat, newId: int)
    requires Core(s) && i < |s.conns| && s.conns[i].hasJob && s.conns[i].jobid == newId
    requires MailButNew(s.jobs, s.conns, newId)
    requires Disappear(Send(s, NewJobNok(s.conns[i].socket, newId)), i).Some?
    ensures MailOk(Disappear(Send(s, NewJobNok(s.conns[i].socket, newId)), i).value)
  {
    AnswerMail(s.jobs, s.conns, newId, NewJobNok(s.conns[i].socket, newId));
    RefuseMail(Send(s, NewJobNok(s.conns[i].socket, newId)), i, newId);
  }

  lemma EnqueueMail(s: Server, i: nat, r: Request)
    requires Core(s) && MailOk(s) && i < |s.conns| && !s.conns[i].hasJob && EnqueueFor(s, i, r).Some?
    ensures MailOk(EnqueueFor(s, i, r).value)
  {
    var id := s.jobs.nextId;
    var socket := s.conns[i].socket;
    EnqueuedMail(s, i, r);
    var jobs := NewJob(s.jobs, r).value;
    var s1 := s.(jobs := jobs, conns := s.conns[i := Conn(socket, true, id)]);
    var k := Find(jobs.queue, id);
    if !jobs.queue[k].state.HoldingClient? {
      AnswerMail(jobs, s1.conns, id, NewJobOk(socket, id));
    } else if !r.waitEnqueuing {
      RefuseNewMail(s1, i, id);
    }
  }

  lemma RemoveMsgMail(s: Server, i: nat, id: int)
    requires Core(s) && MailOk(s) && i < |s.conns| && ReadMsg(s, i, RemoveJobMsg(id)).Some?
    ensures MailOk(ReadMsg(s, i, RemoveJobMsg(id)).value)
  {
    var socket := s.conns[i].socket;
    var (jobs, removed) := RemoveJob(s.jobs, socket, id).value;
    RemoveStates(s.jobs, socket, id);
    var t := ReadMsg(s, i, RemoveJobMsg(id)).value;
    forall x | x != removed && StateOf(s.jobs.queue, x).Some? ensures SocketOf(t.conns, x) == SocketOf(s.conns, x) {
      if removed != -1 { SocketDrop(s.conns, removed, 0, x); }
    }
    if removed in Ids(s.jobs.queue) {
      var k :| 0 <= k < |s.jobs.queue| && s.jobs.queue[k].id == removed;
      assert LiveJob(s.jobs.queue[k], s.jobs.nextId);
    }
    MailKept(s, t, removed);
  }

  lemma OrderMail(s: Server, t: Server)
    requires MailOk(s) && Core(s) && Core(t) && t.conns == s.conns && t.jobs.nextId == s.jobs.nextId
    requires Quiet(s.jobs.sent, t.jobs.sent)
    requires Ids(t.jobs.queue) == Ids(s.jobs.queue)
    requires forall i :: 0 <= i < |t.jobs.queue| ==> t.jobs.queue[i] in s.jobs.queue
    ensures MailOk(t)
  {
    forall x ensures StateOf(t.jobs.queue, x) == StateOf(s.jobs.queue, x) {
      StatePermuted(s.jobs.queue, t.jobs.queue, x);
    }
    MailUnmoved(s, t);
  }

  lemma ClosingMail(s: Server, i: nat)
    requires Core(s) && MailOk(s) && i < |s.conns| && !s.conns[i].hasJob
    ensures var t := Send(s, Answer(s.conns[i].socket));
            MailOk(t) && RemoveConnection(t, i).Some? && MailOk(RemoveConnection(t, i).value)
  {
    var t := Send(s, Answer(s.conns[i].socket));
    MailUnmoved(s, t);
    RemoveConnectionMail(t, i);
  }

  /** Messages that leave the queue and the connections alone send no job mail. */
  lemma HarmlessQuiet(s: Server, i: nat, m: Msg)
    requires i < |s.conns| && Harmless(m) && ReadMsg(s, i, m).Some?
    ensures Quiet(s.jobs.sent, ReadMsg(s, i, m).value.jobs.sent)
  {
  }

  /** The messages that are answered and end the connection. */
  lemma ClosingFrame(s: Server, i: nat, m: Msg)
    requires i < |s.conns| && !s.conns[i].hasJob && (m.ClosingQuery? || m.Info?) && ReadMsg(s, i, m).Some?
    ensures ReadMsg(s, i, m).value.jobs == Send(s, Answer(s.conns[i].socket)).jobs
  {
  }

  lemma QuietMsgMail(s: Server, i: nat, m: Msg)
    requires Core(s) && MailOk(s) && i < |s.conns| && Harmless(m) && ReadMsg(s, i, m).Some?
    ensures MailOk(ReadMsg(s, i, m).value)
  {
    HarmlessFrame(s, i, m);
    HarmlessQuiet(s, i, m);
    MailUnmoved(s, ReadMsg(s, i, m).value);
  }

  lemma OrderMsgMail(s: Server, i: nat, m: Msg)
    requires Core(s) && MailOk(s) && i < |s.conns| && (m.UrgentMsg? || m.SwapJobsMsg?) && ReadMsg(s, i, m).Some?
    ensures MailOk(ReadMsg(s, i, m).value)
  {
    if m.UrgentMsg? {
      Ops.MoveUrgentOk(s.jobs, s.conns[i].socket, m.id);
    } else {
      Ops.SwapJobsOk(s.jobs, s.conns[i].socket, m.id1, m.id2);
    }
    OrderMail(s, ReadMsg(s, i, m).value);
  }

  lemma ReadMail(s: Server, i: nat, m: Msg)
    requires Core(s) && MailOk(s) && i < |s.conns| && ClientOk(s, Read(i, m)) && ReadMsg(s, i, m).Some?
    ensures MailOk(ReadMsg(s, i, m).value)
  {
    if Harmless(m) {
      QuietMsgMail(s, i, m);
    } else if m.UrgentMsg? || m.SwapJobsMsg? {
      OrderMsgMail(s, i, m);
    } else {
      match m
      case NewJobMsg(r) => EnqueueMail(s, i, r);
      case EndJobMsg(r) => EndJobMail(s, i, r);
      case ClosingQuery => ClosingMail(s, i);
      case Info(_) => ClosingMail(s, i);
      case RemoveJobMsg(id) => RemoveMsgMail(s, i, id);
      case Unknown => DisappearMail(s, i);
      case EndOfStream => DisappearMail(s, i);
    }
  }

  // ---- the launch ----

  /** The job at position `k` changes state and its mail grows by `m`. */
  lemma GrowMail(s: Server, k: nat, j: Job, m: Sent)
    requires Core(s) && MailOk(s) && k < |s.jobs.queue| && j.id == s.jobs.queue[k].id && IsMail(m) && m.id == j.id
    requires var socket := SocketOf(s.conns, j.id);
             var mail := Mail(s.jobs.sent, j.id) + [m];
             && socket.Some? && !IsDone(j.state) && !j.state.HoldingClient?
             && (j.state.Queued? || j.state.Allocating? ==> mail == [NewJobOk(socket.value, j.id)])
             && (j.state.Running? ==> Started(mail, socket.value, j.id))
    ensures MailOk(Send(s.(jobs := s.jobs.(queue := s.jobs.queue[k := j])), m))
  {
    var t := Send(s.(jobs := s.jobs.(queue := s.jobs.queue[k := j])), m);
    forall id ensures MailFor(t.jobs, t.conns, id) {
      assert MailFor(s.jobs, s.conns, id);
      StateUpdate(s.jobs.queue, k, j, id);
      MailAppend(s.jobs.sent, m, id);
    }
  }

  lemma {:induction false} WakeAllMail(s: Server)
    requires Core(s) && MailOk(s)
    ensures WakeAll(s).Some? && MailOk(WakeAll(s).value)
    decreases Holding(s.jobs.queue)
  {
    var k := FindHolding(s.jobs.queue);
    if k < 0 {
    } else {
      var j := s.jobs.queue[k];
      assert j.id in Ids(s.jobs.queue);
      ConnFound(s.conns, j.id);
      assert MailFor(s.jobs, s.conns, j.id);
      FindAt(s.jobs.queue, k);
      var m := NewJobOk(s.conns[ConnOf(s.conns, j.id)].socket, j.id);
      GrowMail(s, k, Woken(j), m);
      HoldingUpdate(s.jobs.queue, k, Woken(j));
      Ops.ChangeStateOk(s.jobs, k, Woken(j));
      WakeAllMail(Send(s.(jobs := WakeHoldClient(s.jobs).0), m));
    }
  }

  lemma LaunchMail(s: Server, query: GpuQuery)
    requires Core(s) && MailOk(s) && LaunchOne(s, query).Some?
    ensures MailOk(LaunchOne(s, query).value)
  {
    Ops.NextRunJobOk(s.jobs, query);
    var (jobs, k) := NextRunJob(s.jobs, query).value;
    var s1 := s.(jobs := jobs);
    forall x ensures StateOf(jobs.queue, x) == StateOf(s.jobs.queue, x) { StateSame(s.jobs.queue, jobs.queue, x); }
    MailUnmoved(s, s1);
    if k >= 0 {
      StartJobCore(s, jobs, k);
      StartMail(s1, k);
      WakeAllMail(StartJob(s1, k).value);
    }
  }

  lemma StartMail(s: Server, k: nat)
    requires ListsOk(s.jobs) && MailOk(s) && k < |s.jobs.queue| && IsRunnable(s.jobs.queue[k]) && StartJob(s, k).Some?
    ensures MailOk(StartJob(s, k).value)
  {
    var j := s.jobs.queue[k];
    FindAt(s.jobs.queue, k);
    var t := StartJob(s, k).value;
    var m := RunJob(s.conns[ConnOf(s.conns, j.id)].socket, j.id, j.dependencyErrorlevel, j.gpuIds);
    forall id ensures MailFor(t.jobs, t.conns, id) {
      assert MailFor(s.jobs, s.conns, id);
      assert MailFor(s.jobs, s.conns, j.id);
      StateUpdate(s.jobs.queue, k, j.(state := Running), id);
      MailAppend(s.jobs.sent, m, id);
    }
  }

  lemma StepMail(s: Server, e: Event)
    requires Core(s) && MailOk(s) && ClientOk(s, e) && Step(s, e).Some?
    ensures MailOk(Step(s, e).value)
  {
    match e
    case Accept(socket) =>
      var t := Step(s, e).value;
      forall x | StateOf(s.jobs.queue, x).Some? ensures SocketOf(t.conns, x) == SocketOf(s.conns, x) {
        AcceptSocket(s.conns, Conn(socket, false, 0), x);
      }
      MailUnmoved(s, t);
    case Read(i, m) => if i < |s.conns| { ReadMail(s, i, m); }
    case Launch(query) => LaunchMail(s, query);
  }

  lemma AcceptSocket(conns: seq<Conn>, c: Conn, id: int)
    requires !c.hasJob
    ensures SocketOf(conns + [c], id) == SocketOf(conns, id)
  {
    var m := ConnOf(conns, id);
    if m >= 0 { assert (conns + [c])[m] == conns[m]; }
  }

  /** The per-connection protocol at every point of every run. */
  lemma {:induction false} RunMail(states: seq<Server>, evs: seq<Event>, n: nat)
    requires IsRun(states, evs) && n < |states|
    ensures MailOk(states[n])
  {
    if n == 0 {
    } else {
      RunMail(states, evs, n - 1);
      RunCore(states, evs, n - 1);
      assert ClientOk(states[n - 1], evs[n - 1]) && Step(states[n - 1], evs[n - 1]) == Some(states[n - 1 + 1]);
      StepMail(states[n - 1], evs[n - 1]);
    }
  }
}
