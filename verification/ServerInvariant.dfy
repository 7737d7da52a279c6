/** The invariant of every run: slots are conserved and the run queue is matched one to
    one by the connections that hold a job. */
module ServerInvariant {
  import opened JobTypes
  import opened JobSpec
  import opened JobInvariant
  import opened ServerSpec
  import Ops = JobOperations

  function HeldIds(conns: seq<Conn>): set<int> {
    set i | 0 <= i < |conns| && conns[i].hasJob :: conns[i].jobid
  }

  ghost predicate ConnsOk(conns: seq<Conn>) {
    && (forall i, j :: 0 <= i < j < |conns| && conns[i].hasJob && conns[j].hasJob ==> conns[i].jobid != conns[j].jobid)
    && (forall i, j :: 0 <= i < j < |conns| ==> conns[i].socket != conns[j].socket)
  }

  /** Slot conservation is part of `JobsOk`; the last conjunct is the bijection. */
  ghost predicate Core(s: Server) {
    JobsOk(s.jobs) && ConnsOk(s.conns) && HeldIds(s.conns) == Ids(s.jobs.queue)
  }

  // ---- the connection array ----

  lemma HeldRemove(conns: seq<Conn>, i: nat)
    requires ConnsOk(conns) && i < |conns|
    ensures ConnsOk(RemoveAt(conns, i))
    ensures HeldIds(RemoveAt(conns, i)) == HeldIds(conns) - (if conns[i].hasJob then {conns[i].jobid} else {})
  {
    var r := RemoveAt(conns, i);
    RemoveAtElements(conns, i);
    forall x | x in HeldIds(conns) - (if conns[i].hasJob then {conns[i].jobid} else {}) ensures x in HeldIds(r) {
      var m :| 0 <= m < |conns| && conns[m].hasJob && conns[m].jobid == x;
      assert r[if m < i then m else m - 1] == conns[m];
    }
  }

  lemma HeldSet(conns: seq<Conn>, i: nat, c: Conn)
    requires ConnsOk(conns) && i < |conns| && c.socket == conns[i].socket && !conns[i].hasJob
    requires c.hasJob ==> c.jobid !in HeldIds(conns)
    ensures ConnsOk(conns[i := c])
    ensures HeldIds(conns[i := c]) == HeldIds(conns) + (if c.hasJob then {c.jobid} else {})
  {
    var r := conns[i := c];
    forall x | x in HeldIds(conns) + (if c.hasJob then {c.jobid} else {}) ensures x in HeldIds(r) {
      if x in HeldIds(conns) {
        var m :| 0 <= m < |conns| && conns[m].hasJob && conns[m].jobid == x;
        assert r[m] == conns[m];
      } else {
        assert r[i] == c;
      }
    }
  }

  lemma HeldClear(conns: seq<Conn>, i: nat)
    requires ConnsOk(conns) && i < |conns| && conns[i].hasJob
    ensures ConnsOk(conns[i := conns[i].(hasJob := false)])
    ensures HeldIds(conns[i := conns[i].(hasJob := false)]) == HeldIds(conns) - {conns[i].jobid}
  {
    var r := conns[i := conns[i].(hasJob := false)];
    forall x | x in HeldIds(conns) - {conns[i].jobid} ensures x in HeldIds(r) {
      var m :| 0 <= m < |conns| && conns[m].hasJob && conns[m].jobid == x;
      assert r[m] == conns[m];
    }
  }

  lemma ConnFound(conns: seq<Conn>, id: int)
    requires id in HeldIds(conns)
    ensures ConnOf(conns, id) >= 0
  {
  }

  lemma {:induction false} DropConnsOk(conns: seq<Conn>, id: int, i: nat)
    requires ConnsOk(conns)
    requires forall m :: 0 <= m < i && m < |conns| && conns[m].hasJob ==> conns[m].jobid != id
    ensures ConnsOk(DropConns(conns, id, i))
    ensures HeldIds(DropConns(conns, id, i)) == HeldIds(conns) - {id}
    decreases |conns| - i
  {
    if i >= |conns| {
    } else {
      if conns[i].hasJob && conns[i].jobid == id {
        HeldRemove(conns, i);
        RemoveAtElements(conns, i);
        DropConnsOk(RemoveAt(conns, i), id, i + 1);
      } else {
        DropConnsOk(conns, id, i + 1);
      }
    }
  }

  // ---- the messages ----

  lemma EndJobCore(s: Server, i: nat, r: Result)
    requires Core(s) && i < |s.conns| && s.conns[i].hasJob && EndJob(s, i, r).Some?
    ensures Core(EndJob(s, i, r).value)
  {
    Ops.EndOk(s.jobs, r, s.conns[i].jobid);
    HeldClear(s.conns, i);
  }

  lemma RemoveConnectionCore(s: Server, i: nat)
    requires Core(s) && i < |s.conns| && !s.conns[i].hasJob
    ensures RemoveConnection(s, i).Some? && Core(RemoveConnection(s, i).value)
  {
    HeldRemove(s.conns, i);
  }

  lemma WaitersIrrelevant(s: Server, w: seq<Waiter>, sent: seq<Sent>)
    requires Core(s)
    ensures Core(s.(jobs := s.jobs.(waiters := w, sent := sent)))
  {
  }

  lemma DisappearCore(s: Server, i: nat)
    requires Core(s) && i < |s.conns| && Disappear(s, i).Some?
    ensures Core(Disappear(s, i).value)
  {
    if s.conns[i].hasJob {
      EndJobCore(s, i, KILLED);
      RemoveConnectionCore(EndJob(s, i, KILLED).value, i);
    } else {
      var w := RemoveNotification(s.jobs.waiters, s.conns[i].socket);
      WaitersIrrelevant(s, w, s.jobs.sent);
      RemoveConnectionCore(s.(jobs := s.jobs.(waiters := w)), i);
    }
  }

  lemma EnqueueCore(s: Server, i: nat, r: Request)
    requires Core(s) && i < |s.conns| && !s.conns[i].hasJob && EnqueueFor(s, i, r).Some?
    ensures Core(EnqueueFor(s, i, r).value)
  {
    var id := s.jobs.nextId;
    Ops.NewJobOk(s.jobs, r);
    var jobs := NewJob(s.jobs, r).value;
    HeldSet(s.conns, i, Conn(s.conns[i].socket, true, id));
    var s1 := s.(jobs := jobs, conns := s.conns[i := Conn(s.conns[i].socket, true, id)]);
    var k := Find(jobs.queue, id);
    if k >= 0 && jobs.queue[k].state.HoldingClient? && !r.waitEnqueuing {
      WaitersIrrelevant(s1, jobs.waiters, jobs.sent + [Sent.NewJobNok(s.conns[i].socket, id)]);
      DisappearCore(Send(s1, Sent.NewJobNok(s.conns[i].socket, id)), i);
    }
  }

  lemma RemoveJobCore(s: Server, i: nat, id: int)
    requires Core(s) && i < |s.conns| && ReadMsg(s, i, RemoveJobMsg(id)).Some?
    ensures Core(ReadMsg(s, i, RemoveJobMsg(id)).value)
  {
    var (j, removed) := RemoveJob(s.jobs, s.conns[i].socket, id).value;
    Ops.RemoveJobOk(s.jobs, s.conns[i].socket, id);
    if removed != -1 {
      DropConnsOk(s.conns, removed, 0);
    }
  }

  /** The messages that leave the queue and the connections alone. */
  predicate Harmless(m: Msg) {
    m.KillServer? || m.RunJobOkMsg? || m.Query? || m.AskOutput? || m.ClearFinished? || m.WaitJobMsg?
    || m.WaitRunningJobMsg? || m.SetMaxSlotsMsg?
  }

  lemma HarmlessFrame(s: Server, i: nat, m: Msg)
    requires i < |s.conns| && Harmless(m) && ReadMsg(s, i, m).Some?
    ensures var t := ReadMsg(s, i, m).value;
            && t == s.(jobs := t.jobs)
            && t.jobs == s.jobs.(finished := t.jobs.finished, sent := t.jobs.sent, waiters := t.jobs.waiters,
                                 maxSlots := t.jobs.maxSlots)
            && (t.jobs.finished == s.jobs.finished || t.jobs.finished == [])
            && (s.jobs.maxSlots >= 1 ==> t.jobs.maxSlots >= 1)
  {
  }

  lemma ReadCore(s: Server, i: nat, m: Msg)
    requires Core(s) && i < |s.conns| && ClientOk(s, Read(i, m)) && ReadMsg(s, i, m).Some?
    ensures Core(ReadMsg(s, i, m).value)
  {
    if Harmless(m) {
      HarmlessFrame(s, i, m);
    } else {
      match m
      case NewJobMsg(r) => EnqueueCore(s, i, r);
      case EndJobMsg(r) => EndJobCore(s, i, r);
      case ClosingQuery => RemoveConnectionCore(Send(s, Answer(s.conns[i].socket)), i);
      case Info(_) => RemoveConnectionCore(Send(s, Answer(s.conns[i].socket)), i);
      case RemoveJobMsg(id) => RemoveJobCore(s, i, id);
      case Unknown => DisappearCore(s, i);
      case EndOfStream => DisappearCore(s, i);
      case UrgentMsg(id) => Ops.MoveUrgentOk(s.jobs, s.conns[i].socket, id);
      case SwapJobsMsg(a, b) => Ops.SwapJobsOk(s.jobs, s.conns[i].socket, a, b);
    }
  }

  // ---- the launch ----

  lemma {:induction false} WakeAllCore(s: Server)
    requires Core(s)
    ensures WakeAll(s).Some? && Core(WakeAll(s).value)
    ensures forall k :: 0 <= k < |WakeAll(s).value.jobs.queue| ==> !WakeAll(s).value.jobs.queue[k].state.HoldingClient?
    decreases Holding(s.jobs.queue)
  {
    var k := FindHolding(s.jobs.queue);
    if k < 0 {
    } else {
      var id := s.jobs.queue[k].id;
      ConnFound(s.conns, id);
      HoldingUpdate(s.jobs.queue, k, Woken(s.jobs.queue[k]));
      var jobs := WakeHoldClient(s.jobs).0;
      Ops.ChangeStateOk(s.jobs, k, Woken(s.jobs.queue[k]));
      WakeAllCore(Send(s.(jobs := jobs), NewJobOk(s.conns[ConnOf(s.conns, id)].socket, id)));
    }
  }

  lemma StartJobCore(s: Server, jobs: Jobs, k: nat)
    requires Core(s) && ListsOk(jobs) && Ids(jobs.queue) == Ids(s.jobs.queue) && k < |jobs.queue|
    requires jobs.busy == RunSlots(jobs.queue) + jobs.queue[k].numSlots && !jobs.queue[k].state.Running?
    requires jobs.maxSlots == s.jobs.maxSlots && jobs.nextId == s.jobs.nextId
    requires jobs.lastFinishedId == s.jobs.lastFinishedId
    ensures StartJob(s.(jobs := jobs), k).Some? && Core(StartJob(s.(jobs := jobs), k).value)
  {
    FindAt(jobs.queue, k);
    ConnFound(s.conns, jobs.queue[k].id);
    Ops.ChangeStateOk(jobs, k, jobs.queue[k].(state := Running));
  }

  lemma LaunchCore(s: Server, query: GpuQuery)
    requires Core(s) && LaunchOne(s, query).Some?
    ensures Core(LaunchOne(s, query).value)
  {
    Ops.NextRunJobOk(s.jobs, query);
    var (jobs, k) := NextRunJob(s.jobs, query).value;
    if k >= 0 {
      StartJobCore(s, jobs, k);
      WakeAllCore(StartJob(s.(jobs := jobs), k).value);
    }
  }

  lemma StepCore(s: Server, e: Event)
    requires Core(s) && ClientOk(s, e) && Step(s, e).Some?
    ensures Core(Step(s, e).value)
  {
    match e
    case Accept(socket) =>
      var t := Step(s, e).value;
      if |s.conns| < s.maxConns {
        assert HeldIds(t.conns) == HeldIds(s.conns) by {
          forall x | x in HeldIds(s.conns) ensures x in HeldIds(t.conns) {
            var m :| 0 <= m < |s.conns| && s.conns[m].hasJob && s.conns[m].jobid == x;
            assert t.conns[m] == s.conns[m];
          }
        }
      }
    case Read(i, m) => if i < |s.conns| { ReadCore(s, i, m); }
    case Launch(query) => LaunchCore(s, query);
  }

  /** Slot conservation and the bijection hold at every point of every run. */
  lemma {:induction false} RunCore(states: seq<Server>, evs: seq<Event>, n: nat)
    requires IsRun(states, evs) && n < |states|
    ensures Core(states[n])
  {
    if n == 0 {
    } else {
      RunCore(states, evs, n - 1);
      assert ClientOk(states[n - 1], evs[n - 1]) && Step(states[n - 1], evs[n - 1]) == Some(states[n - 1 + 1]);
      StepCore(states[n - 1], evs[n - 1]);
    }
  }
}
