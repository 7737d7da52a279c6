/** Failure propagation over whole runs: with no held jobs and no removal of finished jobs, a job submitted
    with -W is skipped exactly when a dependency failed. */
module FailureRuns {
  import opened JobTypes
  import opened JobSpec
  import opened JobInvariant
  import opened ServerSpec
  import opened ServerInvariant
  import opened Protocol
  import opened ProtocolRuns
  import opened Dependencies
  import opened Failures
  import opened Waiting
  import opened Scheduling
  import Ops = JobOperations

  const QUIT := Outcome(-1, false, true)

  /** What an event adds to the history. */
  function HistoryStep(h: History, s: Server, e: Event): History {
    match e
    case Read(i, m) =>
      if i >= |s.conns| then h
      else
        var id := s.conns[i].jobid;
        (match m
         case NewJobMsg(r) => h.(deps := h.deps[s.jobs.nextId := Recorded(s.jobs, r.dependOn)])
         case EndJobMsg(r) => h.(ended := h.ended[id := Outcome(r.errorlevel, r.skipped, false)])
         case EndOfStream => if s.conns[i].hasJob then h.(ended := h.ended[id := QUIT]) else h
         case Unknown => if s.conns[i].hasJob then h.(ended := h.ended[id := QUIT]) else h
         case RemoveJobMsg(x) =>
           var p := Locate(s.jobs, x);
           if p.InQueue? && p.k > 0 && !s.jobs.queue[p.k].state.Running?
           then h.(ended := h.ended[s.jobs.queue[p.k].id := QUIT]) else h
         case _ => h)
    case _ => h
  }

  /** The runs spoken of: no client is held, no finished job is removed. */
  predicate Tracked(s: Server, e: Event) {
    e.Read? ==>
      && (e.msg.NewJobMsg? ==> |s.jobs.queue| + 1 < s.jobs.maxJobs)
      && (e.msg.RemoveJobMsg? ==> !Locate(s.jobs, e.msg.id).InFinished?)
  }

  /** A client that was told to run reports a skip exactly when it was submitted with -W and some
      dependencies, and was told a nonzero errorlevel (client.c, c_wait_server_commands). */
  ghost predicate Honest(s: Server, e: Event, strict: int -> bool) {
    e.Read? && e.msg.EndJobMsg? && e.index < |s.conns| ==>
      var r := e.msg.result;
      && (r.skipped ==> r.errorlevel == -1)
      && forall a :: 0 <= a < |s.jobs.sent| && s.jobs.sent[a].RunJob? && s.jobs.sent[a].id == s.conns[e.index].jobid ==>
           (r.skipped <==> strict(s.conns[e.index].jobid) && s.jobs.sent[a].lastErrorlevel != 0)
  }

  predicate Succeeded(h: History, d: Dep) {
    match d
    case Dep(id, known) => known && id in h.ended && h.ended[id].errorlevel == 0
    case Last(_, errorlevel) => errorlevel == 0
  }

  predicate AllSucceeded(h: History, deps: seq<Dep>) { forall i :: 0 <= i < |deps| ==> Succeeded(h, deps[i]) }

  predicate Settled(h: History, deps: seq<Dep>) {
    forall i :: 0 <= i < |deps| ==> Known(deps[i]) ==> deps[i].id in h.ended
  }

  /** Every order to run was sent with zero exactly when all dependencies had ended with errorlevel 0. */
  ghost predicate SentOk(sent: seq<Sent>, h: History) {
    forall a :: 0 <= a < |sent| && sent[a].RunJob? ==>
      && sent[a].id in h.deps
      && Settled(h, h.deps[sent[a].id])
      && (sent[a].lastErrorlevel == 0 <==> AllSucceeded(h, h.deps[sent[a].id]))
  }

  ghost predicate OutcomesOk(h: History, strict: int -> bool) {
    forall id :: id in h.ended ==> OutcomeOk(h, strict, id)
  }

  predicate OutcomeOk(h: History, strict: int -> bool, id: int)
    requires id in h.ended
  {
    && id in h.deps
    && var o := h.ended[id];
       && (o.quit ==> o.errorlevel == -1 && !o.skipped)
       && (!o.quit ==> Settled(h, h.deps[id]) && (o.skipped <==> strict(id) && !AllSucceeded(h, h.deps[id])))
       && (o.skipped ==> o.errorlevel == -1)
  }

  ghost predicate NoneHeld(q: seq<Job>) { forall i :: 0 <= i < |q| ==> !q[i].state.HoldingClient? }

  ghost predicate FailOk(s: Server, h: History, strict: int -> bool) {
    DepsOk(s.jobs, h) && SentOk(s.jobs.sent, h) && OutcomesOk(h, strict) && NoneHeld(s.jobs.queue)
  }

  // ---- the history only grows ----

  lemma EndedGrows(h: History, x: int, o: Outcome, sent: seq<Sent>, strict: int -> bool)
    requires x !in h.ended && x in h.deps && SentOk(sent, h) && OutcomesOk(h, strict)
    requires o.quit ==> o.errorlevel == -1 && !o.skipped
    requires o.skipped ==> o.errorlevel == -1
    requires !o.quit ==> Settled(h, h.deps[x]) && (o.skipped <==> strict(x) && !AllSucceeded(h, h.deps[x]))
    ensures SentOk(sent, h.(ended := h.ended[x := o])) && OutcomesOk(h.(ended := h.ended[x := o]), strict)
  {
    var h' := h.(ended := h.ended[x := o]);
    forall id | id in h.deps && Settled(h, h.deps[id])
      ensures Settled(h', h.deps[id]) && AllSucceeded(h', h.deps[id]) == AllSucceeded(h, h.deps[id])
    {
      SettledStable(h, x, o, h.deps[id]);
    }
    forall id | id in h'.ended ensures OutcomeOk(h', strict, id) {
      if id in h.ended { assert OutcomeOk(h, strict, id); }
    }
  }

  lemma SettledStable(h: History, x: int, o: Outcome, deps: seq<Dep>)
    requires x !in h.ended && Settled(h, deps)
    ensures var h' := h.(ended := h.ended[x := o]);
            Settled(h', deps) && AllSucceeded(h', deps) == AllSucceeded(h, deps)
  {
    var h' := h.(ended := h.ended[x := o]);
    forall i | 0 <= i < |deps| ensures Succeeded(h', deps[i]) == Succeeded(h, deps[i]) {
    }
  }

  lemma DepsGrow(h: History, x: int, deps: seq<Dep>, sent: seq<Sent>, strict: int -> bool)
    requires x !in h.deps && SentOk(sent, h) && OutcomesOk(h, strict)
    ensures SentOk(sent, h.(deps := h.deps[x := deps])) && OutcomesOk(h.(deps := h.deps[x := deps]), strict)
  {
    var h' := h.(deps := h.deps[x := deps]);
    forall id | id in h.deps
      ensures h'.deps[id] == h.deps[id] && Settled(h', h.deps[id]) == Settled(h, h.deps[id])
           && AllSucceeded(h', h.deps[id]) == AllSucceeded(h, h.deps[id])
    {
      assert forall d :: Succeeded(h', d) == Succeeded(h, d);
    }
    forall id | id in h'.ended ensures OutcomeOk(h', strict, id) { assert OutcomeOk(h, strict, id); }
  }

  lemma QuietSent(a: seq<Sent>, b: seq<Sent>, h: History)
    requires Quiet(a, b) && SentOk(a, h)
    ensures SentOk(b, h)
  {
    forall i | 0 <= i < |b| && b[i].RunJob? ensures i < |a| && b[i] == a[i] {
      assert b[..|a|] == a;
    }
  }

  // ---- a job ends ----

  lemma ToldByEnd(s: Jobs, k: nat, r: Result)
    requires ListsOk(s) && k < |s.queue| && FreeGpus(s, s.queue[k]).Some?
    ensures Told(s.queue, AfterEnd(s, k, r).queue, k, r.errorlevel)
    ensures SameJobs(s.finished, AfterEnd(s, k, r).finished)
  {
    var s1 := RecordEnd(FreeGpus(s, s.queue[k]).value, k, r);
    IdsSame(s.queue, s1.queue);
    NotifyEffect(s1, s.queue[k].notifyTo, r.errorlevel);
    NotifyAllSame(s1, s.queue[k].notifyTo, r.errorlevel);
  }

  lemma StoredSame(a: seq<Job>, b: seq<Job>, f: nat)
    requires SameJobs(a, b) && f < |b|
    ensures Stored(a, b[f])
  {
    assert SameJob(a[f], b[f]);
  }

  lemma FinishedAfterEnd(s: Jobs, k: nat, r: Result)
    requires ListsOk(s) && k < |s.queue| && FreeGpus(s, s.queue[k]).Some?
    requires Retire(AfterEnd(s, k, r), k).Some? && CheckNotify(Retire(AfterEnd(s, k, r), k).value, s.queue[k].id).Some?
    ensures var t := CheckNotify(Retire(AfterEnd(s, k, r), k).value, s.queue[k].id).value;
            forall f :: 0 <= f < |t.finished| ==>
              || (t.finished[f].id == s.queue[k].id && t.finished[f].errorlevel == r.errorlevel)
              || Stored(s.finished, t.finished[f])
  {
    var u := AfterEnd(s, k, r);
    ToldByEnd(s, k, r);
    var s1 := RecordEnd(FreeGpus(s, s.queue[k]).value, k, r);
    NotifyAllSame(s1, s.queue[k].notifyTo, r.errorlevel);
    var v := Retire(u, k).value;
    Ops.FinishedShrinks(v, s.queue[k].id, 0);
    var t := CheckNotify(v, s.queue[k].id).value;
    forall f | 0 <= f < |t.finished|
      ensures (t.finished[f].id == s.queue[k].id && t.finished[f].errorlevel == r.errorlevel)
           || Stored(s.finished, t.finished[f])
    {
      assert t.finished[f] in v.finished;
      if t.finished[f] in u.finished {
        var g :| 0 <= g < |u.finished| && u.finished[g] == t.finished[f];
        StoredSame(s.finished, u.finished, g);
      }
    }
  }

  lemma EndFail(s: Server, h: History, i: nat, r: Result, o: Outcome, strict: int -> bool)
    requires Core(s) && FailOk(s, h, strict) && i < |s.conns| && s.conns[i].hasJob && EndJob(s, i, r).Some?
    requires o.errorlevel == r.errorlevel
    requires var x := s.conns[i].jobid;
             && (o.quit ==> o.errorlevel == -1 && !o.skipped)
             && (o.skipped ==> o.errorlevel == -1)
             && (!o.quit ==>
                   x in h.deps && Settled(h, h.deps[x]) && (o.skipped <==> strict(x) && !AllSucceeded(h, h.deps[x])))
    ensures FailOk(EndJob(s, i, r).value, h.(ended := h.ended[s.conns[i].jobid := o]), strict)
  {
    HolderHasJob(s, i);
    var x := s.conns[i].jobid;
    var k := Find(s.jobs.queue, x);
    EndUnfold(s.jobs, r, x);
    var t := EndJob(s, i, r).value;
    ToldByEnd(s.jobs, k, r);
    FinishedAfterEnd(s.jobs, k, r);
    LeaveDeps(s.jobs, h, k, AfterEnd(s.jobs, k, r).queue, t.jobs, o);
    assert x in Ids(s.jobs.queue) && JobDeps(s.jobs, h, s.jobs.queue[k]);
    EndedGrows(h, x, o, s.jobs.sent, strict);
    EndStates(s.jobs, r, x);
    QuietSent(s.jobs.sent, t.jobs.sent, h.(ended := h.ended[x := o]));
    RemoveAtElements(AfterEnd(s.jobs, k, r).queue, k);
  }

  lemma DisappearFail(s: Server, h: History, i: nat, strict: int -> bool)
    requires Core(s) && FailOk(s, h, strict) && i < |s.conns| && Disappear(s, i).Some?
    ensures FailOk(Disappear(s, i).value,
                   if s.conns[i].hasJob then h.(ended := h.ended[s.conns[i].jobid := QUIT]) else h, strict)
  {
    if s.conns[i].hasJob {
      EndFail(s, h, i, KILLED, QUIT, strict);
    } else {
      StaySame(s, h, Disappear(s, i).value, strict);
    }
  }

  lemma StaySame(s: Server, h: History, t: Server, strict: int -> bool)
    requires FailOk(s, h, strict) && t.jobs.nextId == s.jobs.nextId && Quiet(s.jobs.sent, t.jobs.sent)
    requires t.jobs.queue == s.jobs.queue && (t.jobs.finished == s.jobs.finished || t.jobs.finished == [])
    ensures FailOk(t, h, strict)
  {
    forall i | 0 <= i < |t.jobs.queue| ensures SameLinks(s.jobs.queue, t.jobs.queue[i]) {
      assert LinksOf(s.jobs.queue[i], t.jobs.queue[i]);
    }
    StayDeps(s.jobs, h, t.jobs);
    QuietSent(s.jobs.sent, t.jobs.sent, h);
  }

  lemma OrderFail(s: Server, h: History, t: Server, strict: int -> bool)
    requires FailOk(s, h, strict) && Reordered(s.jobs, t.jobs)
    ensures FailOk(t, h, strict)
  {
    forall i | 0 <= i < |t.jobs.queue| ensures SameLinks(s.jobs.queue, t.jobs.queue[i]) {
      var m :| 0 <= m < |s.jobs.queue| && s.jobs.queue[m] == t.jobs.queue[i];
      assert LinksOf(s.jobs.queue[m], t.jobs.queue[i]);
    }
    StayDeps(s.jobs, h, t.jobs);
    QuietSent(s.jobs.sent, t.jobs.sent, h);
  }

  lemma EnqueueFail(s: Server, h: History, i: nat, r: Request, strict: int -> bool)
    requires Core(s) && FailOk(s, h, strict) && i < |s.conns| && EnqueueFor(s, i, r).Some?
    requires Tracked(s, Read(i, NewJobMsg(r)))
    ensures FailOk(EnqueueFor(s, i, r).value, HistoryStep(h, s, Read(i, NewJobMsg(r))), strict)
  {
    var id := s.jobs.nextId;
    NewJobDeps(s.jobs, h, r);
    Ops.NewJobOk(s.jobs, r);
    var jobs := NewJob(s.jobs, r).value;
    DepsGrow(h, id, Recorded(s.jobs, r.dependOn), s.jobs.sent, strict);
    NoneHeldGrown(s.jobs, r);
    EnqueueUnheld(s, i, r);
    OneMore(jobs, HistoryStep(h, s, Read(i, NewJobMsg(r))), EnqueueFor(s, i, r).value,
            NewJobOk(s.conns[i].socket, id), strict);
  }

  lemma OneMore(jobs: Jobs, h: History, t: Server, m: Sent, strict: int -> bool)
    requires DepsOk(jobs, h) && SentOk(jobs.sent, h) && OutcomesOk(h, strict) && NoneHeld(jobs.queue)
    requires t.jobs == jobs.(sent := jobs.sent + [m]) && !m.RunJob?
    ensures FailOk(t, h, strict)
  {
    assert DepsOk(t.jobs, h) by {
      forall k | 0 <= k < |jobs.queue| ensures JobDeps(t.jobs, h, jobs.queue[k])
      {
        assert JobDeps(jobs, h, jobs.queue[k]);
      }
    }
  }

  lemma EnqueueUnheld(s: Server, i: nat, r: Request)
    requires Core(s) && i < |s.conns| && NewJob(s.jobs, r).Some? && |s.jobs.queue| + 1 < s.jobs.maxJobs
    ensures EnqueueFor(s, i, r).Some?
    ensures var jobs := NewJob(s.jobs, r).value;
            EnqueueFor(s, i, r).value.jobs == jobs.(sent := jobs.sent + [NewJobOk(s.conns[i].socket, s.jobs.nextId)])
  {
    Ops.NewJobOk(s.jobs, r);
    FindAt(NewJob(s.jobs, r).value.queue, |s.jobs.queue|);
  }

  lemma NoneHeldGrown(s: Jobs, r: Request)
    requires JobsOk(s) && NewJob(s, r).Some? && NoneHeld(s.queue) && |s.queue| + 1 < s.maxJobs
    ensures NoneHeld(NewJob(s, r).value.queue)
  {
    Ops.NewJobOk(s, r);
    var q := NewJob(s, r).value.queue;
    forall m | 0 <= m < |q| ensures !q[m].state.HoldingClient? {
      if m < |s.queue| {
        assert q[..|s.queue|][m] == q[m];
        assert SameJob(s.queue[m], q[m]);
      }
    }
  }

  lemma RemoveQueuedFail(s: Jobs, h: History, socket: int, k: nat)
    requires JobsOk(s) && DepsOk(s, h) && k < |s.queue| && RemoveQueuedAt(s, socket, k).Some? && NoneHeld(s.queue)
    ensures var t := RemoveQueuedAt(s, socket, k).value;
            DepsOk(t, h.(ended := h.ended[s.queue[k].id := QUIT])) && NoneHeld(t.queue)
  {
    var s1 := s.(queue := s.queue[k := Dropped(s.queue[k])], lastErrorlevel := -1);
    var u := NotifyAll(s1, s.queue[k].notifyTo, -1);
    IdsSame(s.queue, s1.queue);
    NotifyEffect(s1, s.queue[k].notifyTo, -1);
    NotifyAllSame(s1, s.queue[k].notifyTo, -1);
    Ops.FinishedShrinks(u, 0, 0);
    var t := RemoveQueuedAt(s, socket, k).value;
    forall f | 0 <= f < |t.finished| ensures Stored(s.finished, t.finished[f]) {
      assert t.finished[f] in u.finished;
      var g :| 0 <= g < |u.finished| && u.finished[g] == t.finished[f];
      StoredSame(s.finished, u.finished, g);
    }
    LeaveDeps(s, h, k, u.queue, t, QUIT);
    RemoveAtElements(u.queue, k);
  }

  lemma RemoveFail(s: Server, h: History, i: nat, id: int, strict: int -> bool)
    requires Core(s) && FailOk(s, h, strict) && i < |s.conns| && ReadMsg(s, i, RemoveJobMsg(id)).Some?
    requires Tracked(s, Read(i, RemoveJobMsg(id)))
    ensures FailOk(ReadMsg(s, i, RemoveJobMsg(id)).value, HistoryStep(h, s, Read(i, RemoveJobMsg(id))), strict)
  {
    var socket := s.conns[i].socket;
    var t := ReadMsg(s, i, RemoveJobMsg(id)).value;
    RemoveStates(s.jobs, socket, id);
    var p := Locate(s.jobs, id);
    if p.InQueue? && p.k > 0 && !s.jobs.queue[p.k].state.Running? {
      var x := s.jobs.queue[p.k].id;
      RemoveQueuedFail(s.jobs, h, socket, p.k);
      assert x in Ids(s.jobs.queue) && JobDeps(s.jobs, h, s.jobs.queue[p.k]);
      EndedGrows(h, x, QUIT, s.jobs.sent, strict);
      QuietSent(s.jobs.sent, t.jobs.sent, h.(ended := h.ended[x := QUIT]));
    } else {
      StaySame(s, h, t, strict);
    }
  }

  /** The report of a client about its running job matches what its dependencies did. */
  lemma ReportedOutcome(s: Server, h: History, i: nat, r: Result, strict: int -> bool)
    requires Core(s) && FailOk(s, h, strict) && MailOk(s) && i < |s.conns| && s.conns[i].hasJob
    requires JobRuns(s.jobs, s.conns[i].jobid) && Honest(s, Read(i, EndJobMsg(r)), strict)
    ensures var x := s.conns[i].jobid;
            && x in h.deps && Settled(h, h.deps[x])
            && (r.skipped <==> strict(x) && !AllSucceeded(h, h.deps[x]))
            && (r.skipped ==> r.errorlevel == -1)
  {
    var x := s.conns[i].jobid;
    var k :| 0 <= k < |s.jobs.queue| && s.jobs.queue[k].id == x && s.jobs.queue[k].state.Running?;
    FindAt(s.jobs.queue, k);
    assert MailFor(s.jobs, s.conns, x);
    var a := MailIndex(s.jobs.sent, x, 1);
  }

  /** A message about a job was sent. */
  lemma {:induction false} MailIndex(sent: seq<Sent>, id: int, n: nat) returns (a: nat)
    requires n < |Mail(sent, id)|
    ensures a < |sent| && sent[a] == Mail(sent, id)[n]
  {
    var m := |sent| - 1;
    if n < |Mail(sent[..m], id)| {
      a := MailIndex(sent[..m], id, n);
    } else {
      a := m;
    }
  }

  lemma OrderMsgFail(s: Server, h: History, i: nat, m: Msg, strict: int -> bool)
    requires Core(s) && FailOk(s, h, strict) && i < |s.conns| && (m.UrgentMsg? || m.SwapJobsMsg?)
    requires ReadMsg(s, i, m).Some?
    ensures FailOk(ReadMsg(s, i, m).value, h, strict)
  {
    var socket := s.conns[i].socket;
    if m.UrgentMsg? {
      UrgentFrame(s.jobs, socket, m.id);
    } else {
      SwapFrame(s.jobs, socket, m.id1, m.id2);
    }
    OrderFail(s, h, ReadMsg(s, i, m).value, strict);
  }

  /** The two lists of jobs before and after a change of order. */
  ghost predicate Reordered(s: Jobs, t: Jobs) {
    && t.nextId == s.nextId && t.finished == s.finished && Quiet(s.sent, t.sent) && Ids(t.queue) == Ids(s.queue)
    && forall i :: 0 <= i < |t.queue| ==> t.queue[i] in s.queue
  }

  lemma UrgentFrame(s: Jobs, socket: int, id: int)
    requires JobsOk(s) && MoveUrgent(s, socket, id).Some?
    ensures Reordered(s, MoveUrgent(s, socket, id).value)
  {
    Ops.MoveUrgentOk(s, socket, id);
  }

  lemma SwapFrame(s: Jobs, socket: int, id1: int, id2: int)
    requires JobsOk(s)
    ensures Reordered(s, SwapJobs(s, socket, id1, id2))
  {
    Ops.SwapJobsOk(s, socket, id1, id2);
  }

  lemma QuietMsgFail(s: Server, h: History, i: nat, m: Msg, strict: int -> bool)
    requires FailOk(s, h, strict) && i < |s.conns| && ReadMsg(s, i, m).Some?
    requires Harmless(m) || (!s.conns[i].hasJob && (m.ClosingQuery? || m.Info?))
    ensures FailOk(ReadMsg(s, i, m).value, h, strict)
  {
    if Harmless(m) {
      HarmlessFrame(s, i, m);
      HarmlessQuiet(s, i, m);
    } else {
      ClosingFrame(s, i, m);
    }
    StaySame(s, h, ReadMsg(s, i, m).value, strict);
  }

  lemma ReadFail(s: Server, h: History, i: nat, m: Msg, strict: int -> bool)
    requires Core(s) && FailOk(s, h, strict) && MailOk(s) && i < |s.conns| && ReadMsg(s, i, m).Some?
    requires ClientOk(s, Read(i, m)) && Tracked(s, Read(i, m)) && Honest(s, Read(i, m), strict)
    ensures FailOk(ReadMsg(s, i, m).value, HistoryStep(h, s, Read(i, m)), strict)
  {
    if Harmless(m) || m.ClosingQuery? || m.Info? {
      QuietMsgFail(s, h, i, m, strict);
    } else if m.UrgentMsg? || m.SwapJobsMsg? {
      OrderMsgFail(s, h, i, m, strict);
    } else {
      match m
      case NewJobMsg(r) => EnqueueFail(s, h, i, r, strict);
      case EndJobMsg(r) =>
        ReportedOutcome(s, h, i, r, strict);
        EndFail(s, h, i, r, Outcome(r.errorlevel, r.skipped, false), strict);
      case RemoveJobMsg(id) => RemoveFail(s, h, i, id, strict);
      case Unknown => DisappearFail(s, h, i, strict);
      case EndOfStream => DisappearFail(s, h, i, strict);
    }
  }

  // ---- the launch ----

  /** The dependency is a job whose client is still held. */
  predicate HeldInQueue(q: seq<Job>, d: int) {
    var k := Find(q, d);
    k >= 0 && q[k].state.HoldingClient?
  }

  /** A job that is not blocked has a known dependency that has not ended if and only if it depends on a
      held job: all other jobs of the queue block it. */
  lemma UnblockedSettled(s: Jobs, h: History, j: Job)
    requires ListsOk(s) && DepsOk(s, h) && j in s.queue && !Blocked(s, j)
    ensures Settled(h, h.deps[j.id]) <==> forall i :: 0 <= i < |j.dependOn| ==> !HeldInQueue(s.queue, j.dependOn[i])
  {
    var m :| 0 <= m < |s.queue| && s.queue[m] == j;
    assert JobDeps(s, h, s.queue[m]);
    var deps := h.deps[j.id];
    forall i | 0 <= i < |deps|
      ensures Known(deps[i]) && deps[i].id !in h.ended <==> HeldInQueue(s.queue, j.dependOn[i])
    {
      assert j.dependOn[i] == deps[i].id;
      assert !DependencyUnfinished(s, deps[i].id);
      assert forall k :: 0 <= k < |s.queue| ==> LiveJob(s.queue[k], s.nextId);
      if HeldInQueue(s.queue, deps[i].id) { assert deps[i].id in Ids(s.queue); }
    }
  }

  /** A job that is launched while nobody is held has no dependency left in the queue. */
  lemma LaunchedSettled(s: Jobs, h: History, j: Job)
    requires ListsOk(s) && DepsOk(s, h) && NoneHeld(s.queue) && j in s.queue && !Blocked(s, j)
    ensures Settled(h, h.deps[j.id])
    ensures j.dependencyErrorlevel == 0 <==> AllSucceeded(h, h.deps[j.id])
  {
    UnblockedSettled(s, h, j);
    var m :| 0 <= m < |s.queue| && s.queue[m] == j;
    assert JobDeps(s, h, s.queue[m]);
    var deps := h.deps[j.id];
    forall i | 0 <= i < |deps| ensures Succeeded(h, deps[i]) <==> Clear(h, deps[i]) {
    }
  }

  /** A launch only changes device ids before it starts the job. */
  lemma LaunchLinks(s: Jobs, query: GpuQuery)
    requires NextRunJob(s, query).Some?
    ensures var t := NextRunJob(s, query).value.0;
            && t == s.(queue := t.queue, busy := t.busy, usedGpus := t.usedGpus) && |t.queue| == |s.queue|
            && forall i :: 0 <= i < |t.queue| ==> t.queue[i] == s.queue[i].(gpuIds := t.queue[i].gpuIds)
  {
    ScanSame(s, 0, query);
  }

  lemma LinksKept(s: Jobs, h: History, t: Jobs)
    requires ListsOk(s) && DepsOk(s, h) && t.nextId == s.nextId && t.finished == s.finished && |t.queue| == |s.queue|
    requires forall i :: 0 <= i < |t.queue| ==>
               t.queue[i] == s.queue[i].(gpuIds := t.queue[i].gpuIds, state := t.queue[i].state)
    ensures DepsOk(t, h)
  {
    IdsSame(s.queue, t.queue);
    forall i | 0 <= i < |t.queue| ensures SameLinks(s.queue, t.queue[i]) {
      assert LinksOf(s.queue[i], t.queue[i]);
    }
    StayDeps(s, h, t);
  }

  lemma LaunchFail(s: Server, h: History, query: GpuQuery, strict: int -> bool)
    requires Core(s) && FailOk(s, h, strict) && LaunchOne(s, query).Some?
    ensures FailOk(LaunchOne(s, query).value, h, strict)
  {
    PickedFail(s.jobs, h, query);
    var (jobs, k) := NextRunJob(s.jobs, query).value;
    if k >= 0 {
      var s1 := s.(jobs := jobs);
      var t := StartJob(s1, k).value;
      StartedFail(s1, h, k, t, strict);
      assert WakeAll(t) == Some(t);
    }
  }

  /** The state between the choice of a job and its start. */
  lemma PickedFail(s: Jobs, h: History, query: GpuQuery)
    requires JobsOk(s) && DepsOk(s, h) && NoneHeld(s.queue) && NextRunJob(s, query).Some?
    ensures var (t, k) := NextRunJob(s, query).value;
            && ListsOk(t) && DepsOk(t, h) && t.sent == s.sent && NoneHeld(t.queue)
            && (k >= 0 ==>
                  var j := t.queue[k];
                  && j.id in h.deps && Settled(h, h.deps[j.id])
                  && (j.dependencyErrorlevel == 0 <==> AllSucceeded(h, h.deps[j.id])))
  {
    Ops.NextRunJobOk(s, query);
    FirstFit(s, query);
    LaunchLinks(s, query);
    var (t, k) := NextRunJob(s, query).value;
    LinksKept(s, h, t);
    if k >= 0 {
      assert JobDeps(s, h, s.queue[k]);
      LaunchedSettled(s, h, s.queue[k]);
    }
  }

  lemma StartedFail(s: Server, h: History, k: nat, t: Server, strict: int -> bool)
    requires ListsOk(s.jobs) && DepsOk(s.jobs, h) && SentOk(s.jobs.sent, h) && OutcomesOk(h, strict)
    requires NoneHeld(s.jobs.queue)
    requires k < |s.jobs.queue| && StartJob(s, k) == Some(t)
    requires var j := s.jobs.queue[k];
             && j.id in h.deps && Settled(h, h.deps[j.id])
             && (j.dependencyErrorlevel == 0 <==> AllSucceeded(h, h.deps[j.id]))
    ensures FailOk(t, h, strict)
  {
    FindAt(s.jobs.queue, k);
    LinksKept(s.jobs, h, t.jobs);
    assert |t.jobs.sent| == |s.jobs.sent| + 1;
  }

  lemma StepFail(s: Server, h: History, e: Event, strict: int -> bool)
    requires Core(s) && FailOk(s, h, strict) && MailOk(s) && Step(s, e).Some?
    requires ClientOk(s, e) && Tracked(s, e) && Honest(s, e, strict)
    ensures FailOk(Step(s, e).value, HistoryStep(h, s, e), strict)
  {
    match e
    case Accept(_) => StaySame(s, h, Step(s, e).value, strict);
    case Launch(query) => LaunchFail(s, h, query, strict);
    case Read(i, m) => if i < |s.conns| { ReadFail(s, h, i, m, strict); } else { StaySame(s, h, s, strict); }
  }

  // ---- whole runs ----

  /** `hs` is the history of the run. */
  ghost predicate IsHistory(states: seq<Server>, evs: seq<Event>, hs: seq<History>) {
    && |hs| == |states| == |evs| + 1
    && hs[0] == History(map[], map[])
    && forall i :: 0 <= i < |evs| ==> hs[i + 1] == HistoryStep(hs[i], states[i], evs[i])
  }

  ghost predicate TrackedRun(states: seq<Server>, evs: seq<Event>, hs: seq<History>, strict: int -> bool) {
    && IsRun(states, evs) && IsHistory(states, evs, hs)
    && forall i :: 0 <= i < |evs| ==> Tracked(states[i], evs[i]) && Honest(states[i], evs[i], strict)
  }

  lemma TrackedStep(states: seq<Server>, evs: seq<Event>, hs: seq<History>, strict: int -> bool, i: nat)
    requires TrackedRun(states, evs, hs, strict) && i < |evs|
    ensures ClientOk(states[i], evs[i]) == true && Step(states[i], evs[i]) == Some(states[i + 1])
    ensures hs[i + 1] == HistoryStep(hs[i], states[i], evs[i])
    ensures Tracked(states[i], evs[i]) == true && Honest(states[i], evs[i], strict) == true
  {
  }

  lemma {:induction false} RunFail(states: seq<Server>, evs: seq<Event>, hs: seq<History>, strict: int -> bool, n: nat)
    requires TrackedRun(states, evs, hs, strict) && n < |states|
    ensures FailOk(states[n], hs[n], strict)
  {
    if n == 0 {
    } else {
      RunFail(states, evs, hs, strict, n - 1);
      RunCore(states, evs, n - 1);
      RunMail(states, evs, n - 1);
      TrackedStep(states, evs, hs, strict, n - 1);
      StepFail(states[n - 1], hs[n - 1], evs[n - 1], strict);
    }
  }

  /** The errorlevel sent with an order to run is zero exactly when every dependency of the job was
      known and had ended with errorlevel 0. */
  lemma RunToldErrorlevel(states: seq<Server>, evs: seq<Event>, hs: seq<History>, strict: int -> bool, n: nat, a: nat)
    requires TrackedRun(states, evs, hs, strict) && n < |states| && a < |states[n].jobs.sent|
    requires states[n].jobs.sent[a].RunJob?
    ensures var m := states[n].jobs.sent[a];
            m.id in hs[n].deps && (m.lastErrorlevel == 0 <==> AllSucceeded(hs[n], hs[n].deps[m.id]))
  {
    RunFail(states, evs, hs, strict, n);
  }

  /** A -W job that reported its end was skipped exactly when one of its dependencies failed. */
  lemma RunSkips(states: seq<Server>, evs: seq<Event>, hs: seq<History>, strict: int -> bool, n: nat, id: int)
    requires TrackedRun(states, evs, hs, strict) && n < |states| && id in hs[n].ended && !hs[n].ended[id].quit
    requires strict(id)
    ensures id in hs[n].deps
    ensures hs[n].ended[id].skipped <==> !AllSucceeded(hs[n], hs[n].deps[id])
  {
    RunFail(states, evs, hs, strict, n);
  }

  /** There is a dependency on that job itself, not merely on the last result. */
  predicate DependsOn(deps: seq<Dep>, id: int) { exists i :: 0 <= i < |deps| && deps[i].Dep? && deps[i].id == id }

  /** `chain` leads from a job that failed to one that depends on it, and so on; all but the first are -W jobs. */
  ghost predicate FailedChain(h: History, chain: seq<int>, strict: int -> bool) {
    && chain != [] && chain[0] in h.ended && h.ended[chain[0]].errorlevel != 0
    && forall i :: 0 < i < |chain| ==>
         strict(chain[i]) && chain[i] in h.deps && DependsOn(h.deps[chain[i]], chain[i - 1])
  }

  /** The job ended in failure without having been run: it was skipped, or its client went away. */
  predicate NotRun(h: History, id: int)
    requires id in h.ended
  {
    (h.ended[id].skipped || h.ended[id].quit) && h.ended[id].errorlevel != 0
  }

  /** One failure reaches every job that depends on it through -W jobs, also those that have not ended
      yet: an order to run tells them that a dependency failed, upon which the client skips, and each
      that ended was skipped or its client went away. */
  lemma RunFailureSpreads(states: seq<Server>, evs: seq<Event>, hs: seq<History>, strict: int -> bool, n: nat,
                          chain: seq<int>, i: nat)
    requires TrackedRun(states, evs, hs, strict) && n < |states|
    requires FailedChain(hs[n], chain, strict) && 0 < i < |chain|
    ensures var sent := states[n].jobs.sent;
            forall a :: 0 <= a < |sent| && sent[a].RunJob? && sent[a].id == chain[i] ==> sent[a].lastErrorlevel != 0
    ensures chain[i] in hs[n].ended ==> NotRun(hs[n], chain[i])
  {
    RunFail(states, evs, hs, strict, n);
    var h, sent := hs[n], states[n].jobs.sent;
    ChainFails(h, strict, chain, i);
    forall a | 0 <= a < |sent| && sent[a].RunJob? && sent[a].id == chain[i] ensures sent[a].lastErrorlevel != 0 {
      ChainFails(h, strict, chain, i - 1);
      FailedDependency(h, h.deps[chain[i]], chain[i - 1]);
    }
  }

  lemma {:induction false} ChainFails(h: History, strict: int -> bool, chain: seq<int>, i: nat)
    requires OutcomesOk(h, strict) && FailedChain(h, chain, strict) && i < |chain|
    ensures chain[i] in h.ended ==> h.ended[chain[i]].errorlevel != 0 && (i > 0 ==> NotRun(h, chain[i]))
  {
    if i == 0 {
    } else if chain[i] in h.ended {
      assert OutcomeOk(h, strict, chain[i]);
      ChainFails(h, strict, chain, i - 1);
      if !h.ended[chain[i]].quit { FailedDependency(h, h.deps[chain[i]], chain[i - 1]); }
    }
  }

  /** Once all known dependencies have ended, one that failed or was unknown shows. */
  lemma FailedDependency(h: History, deps: seq<Dep>, on: int)
    requires Settled(h, deps) && DependsOn(deps, on) && (on in h.ended ==> h.ended[on].errorlevel != 0)
    ensures !AllSucceeded(h, deps)
  {
    var d :| 0 <= d < |deps| && deps[d].Dep? && deps[d].id == on;
    assert !Succeeded(h, deps[d]);
  }
}
