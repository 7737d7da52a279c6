/** How every job ended, as the messages tell it, and that this is what the server goes by later: in the
    answer to a wait for a job that has ended, and in the errorlevel of the last job. */
module Endings {
  import opened JobTypes
  import opened JobSpec
  import opened JobInvariant
  import opened ServerSpec
  import opened ServerInvariant
  import opened Waiting
  import opened ProtocolRuns
  import opened Dependencies
  import opened Requests
  import Halting
  import Ops = JobOperations

  /** A job that ended, its errorlevel, and whether it was skipped. */
  datatype End = End(id: int, errorlevel: int, skipped: bool)

  /** The job an event ends: the client reports its result, goes away or sends nonsense, or is refused. */
  function EndOf(s: Server, e: Event): Option<End> {
    if !e.Read? || e.index >= |s.conns| then None
    else
      var c := s.conns[e.index];
      match e.msg
      case EndJobMsg(r) => Some(End(c.jobid, r.errorlevel, r.skipped))
      case EndOfStream => if c.hasJob then Some(End(c.jobid, -1, false)) else None
      case Unknown => if c.hasJob then Some(End(c.jobid, -1, false)) else None
      case NewJobMsg(r) => if Halting.Refused(s, r) then Some(End(s.jobs.nextId, -1, false)) else None
      case _ => None
  }

  /** When a job ended, counted in events, and how. */
  datatype Past = Past(at: nat, errorlevel: int, skipped: bool)

  function LogStep(log: map<int, Past>, s: Server, e: Event, n: nat): map<int, Past> {
    match EndOf(s, e)
    case None => log
    case Some(x) => log[x.id := Past(n, x.errorlevel, x.skipped)]
  }

  /** All the ends up to the point `n` of a run. */
  function Log(states: seq<Server>, evs: seq<Event>, n: nat): map<int, Past>
    requires n <= |evs| <= |states|
  {
    if n == 0 then map[] else LogStep(Log(states, evs, n - 1), states[n - 1], evs[n - 1], n - 1)
  }

  // ---- the stored jobs are in the log, in order ----

  predicate EndedSo(j: Job, log: map<int, Past>) {
    && j.id in log && log[j.id].errorlevel == j.errorlevel
    && j.state == if log[j.id].skipped then Skipped else Finished
  }

  ghost predicate Logged(f: seq<Job>, log: map<int, Past>) {
    && (forall i :: 0 <= i < |f| ==> EndedSo(f[i], log))
    && forall i, j :: 0 <= i < j < |f| ==> log[f[i].id].at < log[f[j].id].at
  }

  ghost predicate Before(log: map<int, Past>, n: nat) { forall id :: id in log ==> log[id].at < n }

  lemma LoggedRemove(f: seq<Job>, k: nat, log: map<int, Past>)
    requires k < |f| && Logged(f, log)
    ensures Logged(RemoveAt(f, k), log)
  {
    RemoveAtElements(f, k);
  }

  lemma LoggedSame(f: seq<Job>, g: seq<Job>, log: map<int, Past>)
    requires Logged(f, log) && SameJobs(f, g)
    ensures Logged(g, log)
  {
    assert forall i :: 0 <= i < |f| ==> SameJob(f[i], g[i]);
  }

  /** What is logged of another job changes nothing. */
  lemma LoggedOthers(f: seq<Job>, log: map<int, Past>, x: End, n: nat)
    requires Logged(f, log) && x.id !in Ids(f)
    ensures Logged(f, log[x.id := Past(n, x.errorlevel, x.skipped)])
  {
    assert forall i :: 0 <= i < |f| ==> f[i].id in Ids(f);
  }

  /** A job that ended just now is stored last. */
  lemma LoggedAppend(f: seq<Job>, j: Job, log: map<int, Past>, n: nat)
    requires Logged(f, log) && Before(log, n) && j.id !in Ids(f) && IsDone(j.state)
    ensures Logged(f + [j], log[j.id := Past(n, j.errorlevel, j.state.Skipped?)])
  {
    LoggedOthers(f, log, End(j.id, j.errorlevel, j.state.Skipped?), n);
  }

  lemma LoggedNew(f: seq<Job>, j: Job, max: nat, log: map<int, Past>, n: nat)
    requires Logged(f, log) && Before(log, n) && j.id !in Ids(f) && IsDone(j.state)
    requires NewFinished(f, j, max).Some?
    ensures Logged(NewFinished(f, j, max).value, log[j.id := Past(n, j.errorlevel, j.state.Skipped?)])
  {
    if f == [] {
    } else if |f| < max {
      LoggedAppend(f, j, log, n);
    } else {
      assert f[1..] == RemoveAt(f, 0);
      LoggedRemove(f, 0, log);
      assert j.id !in Ids(f[1..]);
      LoggedAppend(f[1..], j, log, n);
    }
  }

  lemma {:induction false} LoggedNotify(s: Jobs, id: int, i: nat, log: map<int, Past>)
    requires CheckNotifyFrom(s, id, i).Some? && Logged(s.finished, log)
    ensures Logged(CheckNotifyFrom(s, id, i).value.finished, log)
    decreases |s.waiters| - i
  {
    if i >= |s.waiters| {
    } else {
      if s.waiters[i].jobid != id || !IsDone(GetJob(s, id).value.state) {
        LoggedNotify(s, id, i + 1, log);
      } else {
        AnswerLogged(s, s.waiters[i], GetJob(s, id).value, log);
        LoggedNotify(AnswerWaiter(s, s.waiters[i], GetJob(s, id).value).value, id, i, log);
      }
    }
  }

  lemma AnswerLogged(s: Jobs, w: Waiter, j: Job, log: map<int, Past>)
    requires Logged(s.finished, log) && AnswerWaiter(s, w, j).Some?
    ensures Logged(AnswerWaiter(s, w, j).value.finished, log)
  {
    var f := Find(s.finished, j.id);
    if f >= 0 { LoggedRemove(s.finished, f, log); }
  }

  // ---- one event ----

  lemma RetireLogged(u: Jobs, k: nat, log: map<int, Past>, n: nat)
    requires k < |u.queue| && u.queue[k].id !in Ids(u.finished) && Logged(u.finished, log) && Before(log, n)
    requires Retire(u, k).Some? && IsDone(u.queue[k].state)
    ensures Logged(Retire(u, k).value.finished,
                   log[u.queue[k].id := Past(n, u.queue[k].errorlevel, u.queue[k].state.Skipped?)])
  {
    var j := u.queue[k];
    LoggedOthers(u.finished, log, End(j.id, j.errorlevel, j.state.Skipped?), n);
    if u.queue[k].keep || Awaited(u.waiters, j.id) { LoggedNew(u.finished, j, u.maxFinished, log, n); }
  }

  lemma EndLogged(s: Server, i: nat, r: Result, log: map<int, Past>, n: nat)
    requires Core(s) && i < |s.conns| && s.conns[i].hasJob && EndJob(s, i, r).Some?
    requires Logged(s.jobs.finished, log) && Before(log, n)
    ensures var t := EndJob(s, i, r).value.jobs;
            && Logged(t.finished, log[s.conns[i].jobid := Past(n, r.errorlevel, r.skipped)])
            && t.lastFinishedId == s.conns[i].jobid && t.lastErrorlevel == r.errorlevel
  {
    var x := s.conns[i].jobid;
    HolderHasJob(s, i);
    var k := Find(s.jobs.queue, x);
    EndUnfold(s.jobs, r, x);
    AfterEndFrame(s.jobs, k, r);
    var u := AfterEnd(s.jobs, k, r);
    assert x in Ids(s.jobs.queue);
    LoggedSame(s.jobs.finished, u.finished, log);
    RetireLogged(u, k, log, n);
    LoggedNotify(Retire(u, k).value, x, 0, log[x := Past(n, r.errorlevel, r.skipped)]);
  }

  lemma DisappearLogged(s: Server, i: nat, log: map<int, Past>, n: nat)
    requires Core(s) && i < |s.conns| && s.conns[i].hasJob && Disappear(s, i).Some?
    requires Logged(s.jobs.finished, log) && Before(log, n)
    ensures var t := Disappear(s, i).value.jobs;
            && Logged(t.finished, log[s.conns[i].jobid := Past(n, -1, false)])
            && t.lastFinishedId == s.conns[i].jobid && t.lastErrorlevel == -1
  {
    EndLogged(s, i, KILLED, log, n);
  }

  /** The stored jobs and the last result after the event are those of before, or those with the job that ended. */
  ghost predicate Follows(s: Server, e: Event, t: Jobs, log: map<int, Past>, n: nat) {
    && Logged(t.finished, LogStep(log, s, e, n))
    && match EndOf(s, e)
       case None => t.lastFinishedId == s.jobs.lastFinishedId
                    && (t.lastErrorlevel == s.jobs.lastErrorlevel || (Drops(s, e) && t.lastErrorlevel == -1))
                    && (Drops(s, e) ==> t.lastErrorlevel == -1)
       case Some(x) => t.lastFinishedId == x.id && t.lastErrorlevel == x.errorlevel
  }

  /** The event removes a job, one of the queue or one that was stored. */
  predicate Drops(s: Server, e: Event) {
    e.Read? && e.index < |s.conns| && e.msg.RemoveJobMsg?
    && var r := RemoveJob(s.jobs, s.conns[e.index].socket, e.msg.id);
       r.Some? && r.value.1 != -1
  }

  lemma EnqueueLogged(s: Server, i: nat, r: Request, log: map<int, Past>, n: nat)
    requires Core(s) && i < |s.conns| && !s.conns[i].hasJob && EnqueueFor(s, i, r).Some?
    requires Logged(s.jobs.finished, log) && Before(log, n)
    ensures Follows(s, Read(i, NewJobMsg(r)), EnqueueFor(s, i, r).value.jobs, log, n)
  {
    Ops.NewJobOk(s.jobs, r);
    Halting.EnqueueIs(s, i, r);
    if Halting.Refused(s, r) {
      HeldSet(s.conns, i, Conn(s.conns[i].socket, true, s.jobs.nextId));
      DisappearLogged(Halting.RefusedJob(s, i, r), i, log, n);
    }
  }

  lemma RemoveLogged(s: Jobs, socket: int, id: int, log: map<int, Past>)
    requires JobsOk(s) && RemoveJob(s, socket, id).Some? && Logged(s.finished, log)
    ensures var (t, removed) := RemoveJob(s, socket, id).value;
            && Logged(t.finished, log) && t.lastFinishedId == s.lastFinishedId
            && t.lastErrorlevel == if removed == -1 then s.lastErrorlevel else -1
  {
    match Locate(s, id)
    case Nowhere =>
    case InQueue(k) =>
      if !(k == 0 || s.queue[k].state.Running?) {
        var s1 := s.(queue := s.queue[k := Dropped(s.queue[k])], lastErrorlevel := -1);
        NotifyAllSame(s1, s.queue[k].notifyTo, -1);
        var u := NotifyAll(s1, s.queue[k].notifyTo, -1);
        LoggedSame(s.finished, u.finished, log);
        LoggedNotify(u, 0, 0, log);
        assert LiveJob(s.queue[k], s.nextId);
      }
    case InFinished(k) => StoredDropLogged(s, socket, k, log);
  }

  lemma LoggedMark(f: seq<Job>, k: nat, log: map<int, Past>, p: Past)
    requires k < |f| && Logged(f, log) && Distinct(f) && p == log[f[k].id].(errorlevel := -1, skipped := false)
    ensures Logged(f[k := Dropped(f[k])], log[f[k].id := p])
  {
  }

  lemma LoggedUnmark(f: seq<Job>, x: int, log: map<int, Past>, p: Past)
    requires x !in Ids(f) && Logged(f, log[x := p])
    ensures Logged(f, log)
  {
    assert forall i :: 0 <= i < |f| ==> f[i].id in Ids(f);
  }

  /** A stored job is marked before it goes: the log is then right of all the others. */
  lemma StoredDropLogged(s: Jobs, socket: int, k: nat, log: map<int, Past>)
    requires JobsOk(s) && k < |s.finished| && RemoveFinishedAt(s, socket, k).Some? && Logged(s.finished, log)
    ensures var t := RemoveFinishedAt(s, socket, k).value;
            Logged(t.finished, log) && t.lastFinishedId == s.lastFinishedId && t.lastErrorlevel == -1
  {
    var x := s.finished[k].id;
    var p := log[x].(errorlevel := -1, skipped := false);
    LoggedMark(s.finished, k, log, p);
    StoredRemoved(s, socket, k);
    DropLogged(s, socket, k, log[x := p]);
    LoggedUnmark(RemoveFinishedAt(s, socket, k).value.finished, x, log, p);
  }

  lemma DropLogged(s: Jobs, socket: int, k: nat, log: map<int, Past>)
    requires k < |s.finished| && RemoveFinishedAt(s, socket, k).Some?
    requires Logged(s.finished[k := Dropped(s.finished[k])], log)
    ensures Logged(RemoveFinishedAt(s, socket, k).value.finished, log)
  {
    var s1 := s.(finished := s.finished[k := Dropped(s.finished[k])], lastErrorlevel := -1);
    var u := NotifyAll(s1, s.finished[k].notifyTo, -1);
    NotifyAllSame(s1, s.finished[k].notifyTo, -1);
    LoggedSame(s1.finished, u.finished, log);
    LoggedNotify(u, 0, 0, log);
    var v := CheckNotify(u, 0).value;
    LoggedRemove(v.finished, Find(v.finished, s.finished[k].id), log);
  }

  lemma {:induction false} WakeLogged(s: Server)
    requires WakeAll(s).Some?
    ensures WakeAll(s).value.jobs.finished == s.jobs.finished
    ensures WakeAll(s).value.jobs.lastFinishedId == s.jobs.lastFinishedId
    ensures WakeAll(s).value.jobs.lastErrorlevel == s.jobs.lastErrorlevel
    decreases Holding(s.jobs.queue)
  {
    var k := FindHolding(s.jobs.queue);
    if k < 0 {
    } else {
      HoldingUpdate(s.jobs.queue, k, Woken(s.jobs.queue[k]));
      WakeLogged(Send(s.(jobs := WakeHoldClient(s.jobs).0),
                      NewJobOk(s.conns[ConnOf(s.conns, s.jobs.queue[k].id)].socket, s.jobs.queue[k].id)));
    }
  }

  lemma LaunchLogged(s: Server, query: GpuQuery)
    requires LaunchOne(s, query).Some?
    ensures var t := LaunchOne(s, query).value.jobs;
            && t.finished == s.jobs.finished
            && t.lastFinishedId == s.jobs.lastFinishedId && t.lastErrorlevel == s.jobs.lastErrorlevel
  {
    var (jobs, k) := NextRunJob(s.jobs, query).value;
    if k >= 0 { WakeLogged(StartJob(s.(jobs := jobs), k).value); }
  }

  lemma ReadLogged(s: Server, i: nat, m: Msg, log: map<int, Past>, n: nat)
    requires Core(s) && i < |s.conns| && ClientOk(s, Read(i, m)) && ReadMsg(s, i, m).Some?
    requires Logged(s.jobs.finished, log) && Before(log, n)
    ensures Follows(s, Read(i, m), ReadMsg(s, i, m).value.jobs, log, n)
  {
    if Harmless(m) {
      HarmlessFrame(s, i, m);
    } else if m.ClosingQuery? || m.Info? {
      ClosingFrame(s, i, m);
    } else {
      match m
      case NewJobMsg(r) => EnqueueLogged(s, i, r, log, n);
      case EndJobMsg(r) => EndLogged(s, i, r, log, n);
      case RemoveJobMsg(id) => RemoveLogged(s.jobs, s.conns[i].socket, id, log);
      case UrgentMsg(_) =>
      case SwapJobsMsg(_, _) =>
      case Unknown => if s.conns[i].hasJob { DisappearLogged(s, i, log, n); }
      case EndOfStream => if s.conns[i].hasJob { DisappearLogged(s, i, log, n); }
    }
  }

  lemma StepLogged(s: Server, e: Event, log: map<int, Past>, n: nat)
    requires Core(s) && ClientOk(s, e) && Step(s, e).Some? && Logged(s.jobs.finished, log) && Before(log, n)
    ensures Follows(s, e, Step(s, e).value.jobs, log, n)
  {
    match e
    case Accept(_) =>
    case Launch(query) => LaunchLogged(s, query);
    case Read(i, m) => if i < |s.conns| { ReadLogged(s, i, m, log, n); }
  }

  // ---- whole runs ----

  /** The last end of a run, counting from the idle server; a removal leaves -1 for its errorlevel. */
  function LastEnd(states: seq<Server>, evs: seq<Event>, n: nat): End
    requires n <= |evs| <= |states|
  {
    if n == 0 then End(0, 0, false)
    else
      match EndOf(states[n - 1], evs[n - 1])
      case Some(x) => x
      case None =>
        var last := LastEnd(states, evs, n - 1);
        if Drops(states[n - 1], evs[n - 1]) then last.(errorlevel := -1) else last
  }

  lemma LogBefore(log: map<int, Past>, s: Server, e: Event, n: nat)
    requires Before(log, n)
    ensures Before(LogStep(log, s, e, n), n + 1)
  {
  }

  /** At every point of every run the stored jobs are those that ended so, the later the further back, and
      the last result is that of the last end or removal. */
  lemma {:induction false} RunLogged(states: seq<Server>, evs: seq<Event>, n: nat)
    requires IsRun(states, evs) && n < |states|
    ensures Before(Log(states, evs, n), n)
    ensures Logged(states[n].jobs.finished, Log(states, evs, n))
    ensures states[n].jobs.lastFinishedId == LastEnd(states, evs, n).id
    ensures states[n].jobs.lastErrorlevel == LastEnd(states, evs, n).errorlevel
  {
    if n == 0 {
    } else {
      RunLogged(states, evs, n - 1);
      RunCore(states, evs, n - 1);
      assert ClientOk(states[n - 1], evs[n - 1]) && Step(states[n - 1], evs[n - 1]) == Some(states[n - 1 + 1]);
      StepLogged(states[n - 1], evs[n - 1], Log(states, evs, n - 1), n - 1);
      LogBefore(Log(states, evs, n - 1), states[n - 1], evs[n - 1], n - 1);
    }
  }

  /** The wait is for a job that has ended and is stored: the one named; or, without an id, the last stored one,
      if the queue is empty, or no slot is busy when the client asks for the running job. */
  predicate AsksEnded(s: Jobs, m: Msg)
    requires m.WaitJobMsg? || m.WaitRunningJobMsg?
  {
    if m.id != -1 then m.id in Ids(s.finished)
    else s.finished != [] && if m.WaitJobMsg? then s.queue == [] else s.busy <= 0
  }

  function AskedJob(s: Jobs, m: Msg): int
    requires (m.WaitJobMsg? || m.WaitRunningJobMsg?) && AsksEnded(s, m)
  {
    if m.id != -1 then m.id else s.finished[|s.finished| - 1].id
  }

  /** The errorlevel job `x` ended with is all that is sent. */
  predicate AnswersWith(s: Server, i: nat, t: Server, x: int, log: map<int, Past>)
    requires i < |s.conns|
  {
    x in log && t == Send(s, WaitJobOk(s.conns[i].socket, log[x].errorlevel))
  }

  /** No errorlevel is sent. */
  predicate AnswersNothing(s: Server, i: nat, t: Server)
    requires i < |s.conns|
  {
    t.jobs.sent == s.jobs.sent || t.jobs.sent == s.jobs.sent + [Line(s.conns[i].socket)]
  }

  /** No stored job ended after `x`. */
  predicate EndedLast(f: seq<Job>, x: int, log: map<int, Past>) {
    x in log && forall i :: 0 <= i < |f| ==> f[i].id in log && log[f[i].id].at <= log[x].at
  }

  /** A wait for a job that has ended is answered at once, with the errorlevel the job ended with; without an
      id the job is the one that ended last of those stored. Any other wait gets no such answer yet. */
  lemma RunAnsweredAtOnce(states: seq<Server>, evs: seq<Event>, n: nat, i: nat, m: Msg, t: Server)
    requires IsRun(states, evs) && n < |states| && i < |states[n].conns|
    requires (m.WaitJobMsg? || m.WaitRunningJobMsg?) && ReadMsg(states[n], i, m) == Some(t)
    ensures !AsksEnded(states[n].jobs, m) ==> AnswersNothing(states[n], i, t)
    ensures AsksEnded(states[n].jobs, m) ==>
              && AnswersWith(states[n], i, t, AskedJob(states[n].jobs, m), Log(states, evs, n))
              && (m.id == -1 ==>
                    EndedLast(states[n].jobs.finished, AskedJob(states[n].jobs, m), Log(states, evs, n)))
  {
    RunCore(states, evs, n);
    RunLogged(states, evs, n);
    WaitRead(states[n], i, m, t, Log(states, evs, n));
  }

  lemma WaitRead(s: Server, i: nat, m: Msg, t: Server, log: map<int, Past>)
    requires Core(s) && Logged(s.jobs.finished, log) && i < |s.conns|
    requires (m.WaitJobMsg? || m.WaitRunningJobMsg?) && ReadMsg(s, i, m) == Some(t)
    ensures !AsksEnded(s.jobs, m) ==> AnswersNothing(s, i, t) == true
    ensures AsksEnded(s.jobs, m) ==>
              && AnswersWith(s, i, t, AskedJob(s.jobs, m), log) == true
              && (m.id == -1 ==> EndedLast(s.jobs.finished, AskedJob(s.jobs, m), log) == true)
  {
    var socket := s.conns[i].socket;
    if m.id != -1 {
      WaitsForId(s.jobs, socket, m.id);
    } else if m.WaitJobMsg? {
      WaitsForLast(s.jobs, socket);
    } else {
      WaitsForRunning(s.jobs, socket);
    }
  }

  /** What -d counts when it means no job of the queue: how the newest stored job ended, if that job is newer
      than the last that ended, and otherwise how the last job ended. */
  lemma RunLastDep(states: seq<Server>, evs: seq<Event>, n: nat)
    requires IsRun(states, evs) && n < |states| && LastDep(states[n].jobs).Last?
    ensures var d, last, log := LastDep(states[n].jobs), LastEnd(states, evs, n), Log(states, evs, n);
            if d.id > last.id then d.id in log && d.errorlevel == log[d.id].errorlevel
            else d.errorlevel == last.errorlevel
  {
    RunCore(states, evs, n);
    RunLogged(states, evs, n);
    MaxIdStored(states[n].jobs);
  }
}
