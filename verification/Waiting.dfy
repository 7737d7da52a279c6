/** No wait is lost: clients that wait for a job are answered once, in the order they
    asked, when that job ends. */
module Waiting {
  import opened JobTypes
  import opened JobSpec
  import opened JobInvariant
  import opened ServerSpec
  import opened ServerInvariant
  import Ops = JobOperations

  /** The waiters that are not on job `id`, in order. */
  function Others(w: seq<Waiter>, id: int): seq<Waiter> {
    if w == [] then []
    else (if w[0].jobid == id then [] else [w[0]]) + Others(w[1..], id)
  }

  /** One answer for each waiter on job `id`, in order. */
  function Answers(w: seq<Waiter>, id: int, errorlevel: int): seq<Sent> {
    if w == [] then []
    else (if w[0].jobid == id then [WaitJobOk(w[0].socket, errorlevel)] else []) + Answers(w[1..], id, errorlevel)
  }

  ghost predicate DistinctSockets(w: seq<Waiter>) { forall i, j :: 0 <= i < j < |w| ==> w[i].socket != w[j].socket }

  /** An open connection without a job has this socket. */
  ghost predicate IdleSocket(conns: seq<Conn>, socket: int) {
    exists i :: 0 <= i < |conns| && conns[i].socket == socket && !conns[i].hasJob
  }

  ghost predicate AllKept(f: seq<Job>) { forall i :: 0 <= i < |f| ==> f[i].keep }

  /** A wait is for a job of the queue, or one that was lost: its job was taken out of the queue by a
      removal, for good, and is not job 0. */
  ghost predicate Named(s: Jobs, lost: set<int>) {
    && (forall x :: x in lost ==> 0 < x < s.nextId && x !in Ids(s.queue))
    && (forall i :: 0 <= i < |s.waiters| ==> s.waiters[i].jobid in Ids(s.queue) + lost)
  }

  /** The waits that are in order, but for those on the `lost` jobs. */
  ghost predicate WaitOk(s: Server, lost: set<int>) {
    && s.jobs.maxFinished >= 2
    && DistinctSockets(s.jobs.waiters)
    && Named(s.jobs, lost)
    && (forall i :: 0 <= i < |s.jobs.waiters| ==> IdleSocket(s.conns, s.jobs.waiters[i].socket))
    && AllKept(s.jobs.finished)
    && |s.jobs.finished| <= s.jobs.maxFinished
  }

  /** A removal request that meets a job some client waits for. */
  predicate RemovesAwaited(s: Jobs, id: int) {
    match Locate(s, id)
    case InQueue(k) => k > 0 && !s.queue[k].state.Running? && Awaited(s.waiters, s.queue[k].id)
    case _ => false
  }

  /** The job whose waiters an event loses, if there is one. */
  function LostBy(s: Server, e: Event): set<int> {
    if e.Read? && e.index < |s.conns| && e.msg.RemoveJobMsg? && RemovesAwaited(s.jobs, e.msg.id)
    then {s.jobs.queue[Locate(s.jobs, e.msg.id).k].id} else {}
  }

  // ---- check_notify_list ----

  lemma {:induction false} NobodyWaits(s: Jobs, id: int, i: nat)
    requires forall m :: i <= m < |s.waiters| ==> s.waiters[m].jobid != id
    ensures CheckNotifyFrom(s, id, i) == Some(s)
    decreases |s.waiters| - i
  {
    if i >= |s.waiters| {
    } else {
      NobodyWaits(s, id, i + 1);
    }
  }

  /** While the job looked for has not ended, check_notify_list changes nothing. */
  lemma {:induction false} NotEndedYet(s: Jobs, id: int, i: nat)
    requires GetJob(s, id).Some? && !IsDone(GetJob(s, id).value.state)
    ensures CheckNotifyFrom(s, id, i) == Some(s)
    decreases |s.waiters| - i
  {
    if i >= |s.waiters| {
    } else {
      NotEndedYet(s, id, i + 1);
    }
  }

  lemma {:induction false} OthersNone(w: seq<Waiter>, id: int)
    requires !Awaited(w, id)
    ensures Others(w, id) == w && forall e :: Answers(w, id, e) == []
  {
    if w == [] {
    } else {
      assert w[0].jobid != id;
      assert !Awaited(w[1..], id) by {
        forall m | 0 <= m < |w[1..]| ensures w[1..][m].jobid != id { assert w[1..][m] == w[m + 1]; }
      }
      OthersNone(w[1..], id);
    }
  }

  lemma SocketAt(w: seq<Waiter>, i: nat)
    requires i < |w| && DistinctSockets(w)
    ensures FindSocket(w, w[i].socket) == i
    ensures RemoveNotification(w, w[i].socket) == RemoveAt(w, i)
    ensures DistinctSockets(RemoveAt(w, i))
  {
    RemoveAtElements(w, i);
  }

  /** The job `id` ended and sits in the finished list: everybody from position `i` on who
      waits for it is answered and taken off the list; a job stored only for them is dropped. */
  ghost predicate Answered(s: Jobs, id: int, i: nat, t: Jobs)
    requires i <= |s.waiters|
  {
    var f := Find(s.finished, id);
    && f >= 0
    && t == s.(
         sent := s.sent + Answers(s.waiters[i..], id, s.finished[f].errorlevel),
         waiters := s.waiters[..i] + Others(s.waiters[i..], id),
         finished := if Awaited(s.waiters[i..], id) && !s.finished[f].keep then RemoveAt(s.finished, f) else s.finished)
  }

  lemma TailAwaited(w: seq<Waiter>, i: nat, id: int)
    requires i < |w|
    ensures Awaited(w[i..], id) <==> w[i].jobid == id || Awaited(w[i + 1..], id)
  {
    if Awaited(w[i..], id) && w[i].jobid != id {
      var m :| 0 <= m < |w[i..]| && w[i..][m].jobid == id;
      assert w[i + 1..][m - 1] == w[i..][m];
    }
    if w[i].jobid == id { assert w[i..][0] == w[i]; }
    if Awaited(w[i + 1..], id) {
      var m :| 0 <= m < |w[i + 1..]| && w[i + 1..][m].jobid == id;
      assert w[i..][m + 1] == w[i + 1..][m];
    }
  }

  lemma WholeAwaited(w: seq<Waiter>, i: nat, id: int)
    requires i <= |w| && forall m :: 0 <= m < i ==> w[m].jobid != id
    ensures Awaited(w, id) <==> Awaited(w[i..], id)
  {
    if Awaited(w, id) {
      var m :| 0 <= m < |w| && w[m].jobid == id;
      assert w[i..][m - i] == w[m];
    }
    if Awaited(w[i..], id) {
      var m :| 0 <= m < |w[i..]| && w[i..][m].jobid == id;
      assert w[m + i] == w[i..][m];
    }
  }

  lemma SkipWaiter(s: Jobs, id: int, i: nat, t: Jobs)
    requires i < |s.waiters| && s.waiters[i].jobid != id && Answered(s, id, i + 1, t)
    ensures Answered(s, id, i, t)
  {
    var w := s.waiters;
    TailAwaited(w, i, id);
    assert w[i..][0] == w[i] && w[i..][1..] == w[i + 1..];
    assert w[..i + 1] == w[..i] + [w[i]];
    assert w[..i + 1] + Others(w[i + 1..], id) == w[..i] + Others(w[i..], id);
  }

  lemma AnswerOne(s: Jobs, id: int, i: nat)
    requires DistinctSockets(s.waiters) && i < |s.waiters| && s.waiters[i].jobid == id
    requires forall m :: 0 <= m < i ==> s.waiters[m].jobid != id
    requires Find(s.queue, id) < 0 && Find(s.finished, id) >= 0
    ensures var f := Find(s.finished, id);
            var t := AnswerWaiter(s, s.waiters[i], s.finished[f]);
            && t.Some?
            && t.value == s.(sent := s.sent + [WaitJobOk(s.waiters[i].socket, s.finished[f].errorlevel)],
                             waiters := RemoveAt(s.waiters, i),
                             finished := if !Awaited(s.waiters[i + 1..], id) && !s.finished[f].keep
                                         then RemoveAt(s.finished, f) else s.finished)
            && t.value.waiters[..i] == s.waiters[..i] && t.value.waiters[i..] == s.waiters[i + 1..]
            && DistinctSockets(t.value.waiters)
  {
    SocketAt(s.waiters, i);
    var w := RemoveAt(s.waiters, i);
    RemoveAtElements(s.waiters, i);
    WholeAwaited(w, i, id);
    assert w[i..] == s.waiters[i + 1..];
  }

  /** One waiter on `id` is left at position `i`: the answer to it, then the rest. */
  lemma AnswerThenRest(s: Jobs, id: int, i: nat, t: Jobs, u: Jobs)
    requires i < |s.waiters| && s.waiters[i].jobid == id && Find(s.finished, id) >= 0
    requires Awaited(s.waiters[i + 1..], id)
    requires t == s.(sent := s.sent + [WaitJobOk(s.waiters[i].socket, s.finished[Find(s.finished, id)].errorlevel)],
                     waiters := t.waiters)
    requires i <= |t.waiters| && t.waiters[..i] == s.waiters[..i] && t.waiters[i..] == s.waiters[i + 1..]
    requires Answered(t, id, i, u)
    ensures Answered(s, id, i, u)
  {
    var w := s.waiters;
    var e := s.finished[Find(s.finished, id)].errorlevel;
    TailAwaited(w, i, id);
    assert w[i..][0] == w[i] && w[i..][1..] == w[i + 1..];
    assert s.sent + [WaitJobOk(w[i].socket, e)] + Answers(w[i + 1..], id, e) == s.sent + Answers(w[i..], id, e);
  }

  lemma AnswerLast(s: Jobs, id: int, i: nat, t: Jobs)
    requires i < |s.waiters| && s.waiters[i].jobid == id && Find(s.finished, id) >= 0
    requires !Awaited(s.waiters[i + 1..], id)
    requires var f := Find(s.finished, id);
             t == s.(sent := s.sent + [WaitJobOk(s.waiters[i].socket, s.finished[f].errorlevel)],
                     waiters := RemoveAt(s.waiters, i),
                     finished := if !s.finished[f].keep then RemoveAt(s.finished, f) else s.finished)
    ensures Answered(s, id, i, t)
    ensures forall m :: i <= m < |t.waiters| ==> t.waiters[m].jobid != id
  {
    var w := s.waiters;
    var e := s.finished[Find(s.finished, id)].errorlevel;
    TailAwaited(w, i, id);
    OthersNone(w[i + 1..], id);
    assert w[i..][0] == w[i] && w[i..][1..] == w[i + 1..];
    assert Answers(w[i..], id, e) == [WaitJobOk(w[i].socket, e)];
    RemoveAtElements(w, i);
    forall m | i <= m < |t.waiters| ensures t.waiters[m].jobid != id {
      assert w[i + 1..][m - i] == t.waiters[m];
    }
  }

  lemma {:induction false} CheckNotifyAnswers(s: Jobs, id: int, i: nat)
    requires DistinctSockets(s.waiters) && i <= |s.waiters|
    requires forall m :: 0 <= m < i ==> s.waiters[m].jobid != id
    requires Find(s.queue, id) < 0 && Find(s.finished, id) >= 0
    requires IsDone(s.finished[Find(s.finished, id)].state)
    ensures CheckNotifyFrom(s, id, i).Some? && Answered(s, id, i, CheckNotifyFrom(s, id, i).value)
    decreases |s.waiters| - i
  {
    var w := s.waiters;
    if i == |w| {
      assert w[i..] == [] && w[..i] == w;
    } else if w[i].jobid != id {
      CheckNotifyAnswers(s, id, i + 1);
      SkipWaiter(s, id, i, CheckNotifyFrom(s, id, i + 1).value);
    } else {
      AnswerOne(s, id, i);
      var t := AnswerWaiter(s, w[i], s.finished[Find(s.finished, id)]).value;
      if Awaited(w[i + 1..], id) {
        assert forall m :: 0 <= m < i ==> t.waiters[m] == t.waiters[..i][m];
        CheckNotifyAnswers(t, id, i);
        AnswerThenRest(s, id, i, t, CheckNotifyFrom(t, id, i).value);
      } else {
        AnswerLast(s, id, i, t);
        NobodyWaits(t, id, i);
      }
    }
  }

  // ---- the end of a job ----

  /** The finished list before the ended job is put at its end. */
  function Trimmed(f: seq<Job>, max: nat): seq<Job> { if f != [] && |f| >= max then f[1..] else f }

  lemma NewFinishedTrimmed(f: seq<Job>, j: Job, max: nat)
    requires max >= 2
    ensures NewFinished(f, j, max) == Some(Trimmed(f, max) + [j])
  {
    assert [] + [j] == [j];
  }

  lemma FindLast(g: seq<Job>, j: Job)
    requires j.id !in Ids(g)
    ensures Find(g + [j], j.id) == |g| && RemoveAt(g + [j], |g|) == g
  {
    var q := g + [j];
    assert q[|g|] == j;
    forall i | 0 <= i < |g| ensures q[i].id != j.id {
      assert g[i].id in Ids(g);
    }
  }

  lemma TrimmedIds(f: seq<Job>, max: nat)
    ensures Ids(Trimmed(f, max)) <= Ids(f)
    ensures forall i :: 0 <= i < |Trimmed(f, max)| ==> Trimmed(f, max)[i] in f
  {
  }

  /** Retire and check_notify_list together: every waiter of the job is answered, in order,
      and the job stays in the finished list only if it is to be kept. */
  lemma RetireAnswers(s: Jobs, k: nat, id: int)
    requires k < |s.queue| && s.queue[k].id == id && IsDone(s.queue[k].state)
    requires ListsOk(s.(queue := RemoveAt(s.queue, k))) && id !in Ids(s.finished) && id !in Ids(RemoveAt(s.queue, k))
    requires s.maxFinished >= 2 && DistinctSockets(s.waiters)
    ensures Retire(s, k).Some?
    ensures var j := s.queue[k];
            var t := CheckNotify(Retire(s, k).value, id);
            && t.Some?
            && t.value == s.(queue := RemoveAt(s.queue, k),
                 waiters := Others(s.waiters, id),
                 sent := s.sent + Answers(s.waiters, id, j.errorlevel),
                 finished := if j.keep then Trimmed(s.finished, s.maxFinished) + [j]
                             else if Awaited(s.waiters, id) then Trimmed(s.finished, s.maxFinished)
                             else s.finished)
  {
    var j := s.queue[k];
    var w := s.waiters;
    NewFinishedTrimmed(s.finished, j, s.maxFinished);
    var g := Trimmed(s.finished, s.maxFinished);
    TrimmedIds(s.finished, s.maxFinished);
    var t := Retire(s, k).value;
    assert w[0..] == w && w[..0] == [];
    if Awaited(w, id) {
      FindLast(g, j);
      CheckNotifyAnswers(t, id, 0);
    } else {
      OthersNone(w, id);
      NobodyWaits(t, id, 0);
    }
  }

  /** The state in which the job at position `k` has recorded its end and told its dependents. */
  function AfterEnd(s: Jobs, k: nat, r: Result): Jobs
    requires k < |s.queue| && FreeGpus(s, s.queue[k]).Some?
  {
    NotifyAll(RecordEnd(FreeGpus(s, s.queue[k]).value, k, r), s.queue[k].notifyTo, r.errorlevel)
  }

  lemma AfterEndFrame(s: Jobs, k: nat, r: Result)
    requires JobsOk(s) && k < |s.queue| && FreeGpus(s, s.queue[k]).Some?
    ensures var t := AfterEnd(s, k, r);
            && t.waiters == s.waiters && t.sent == s.sent && t.maxFinished == s.maxFinished
            && |t.queue| == |s.queue| && t.queue[k].id == s.queue[k].id && IsDone(t.queue[k].state)
            && t.queue[k].keep == s.queue[k].keep && t.queue[k].errorlevel == r.errorlevel
            && (t.queue[k].state.Skipped? <==> r.skipped)
            && SameJobs(s.finished, t.finished)
            && ListsOk(t.(queue := RemoveAt(t.queue, k)))
            && Ids(RemoveAt(t.queue, k)) == Ids(s.queue) - {s.queue[k].id}
            && Ids(t.finished) == Ids(s.finished)
  {
    var s1 := FreeGpus(s, s.queue[k]).value;
    Ops.RecordEndOk(s1, k, r);
    NotifyAllSame(RecordEnd(s1, k, r), s.queue[k].notifyTo, r.errorlevel);
  }

  lemma EndUnfold(s: Jobs, r: Result, id: int)
    requires Find(s.queue, id) >= 0
    ensures var k := Find(s.queue, id);
            JobFinished(s, r, id) ==
              if s.busy > 0 && FreeGpus(s, s.queue[k]).Some? then Retire(AfterEnd(s, k, r), k) else None
  {
  }

  /** What is left of the queue-independent part of the state once a job has ended. */
  ghost predicate EndedAs(s: Jobs, k: nat, r: Result, t: Jobs)
    requires k < |s.queue| && FreeGpus(s, s.queue[k]).Some?
  {
    var u := AfterEnd(s, k, r);
    && |u.queue| == |s.queue|
    && t == u.(queue := RemoveAt(u.queue, k),
               waiters := Others(s.waiters, s.queue[k].id),
               sent := s.sent + Answers(s.waiters, s.queue[k].id, r.errorlevel),
               finished := if s.queue[k].keep then Trimmed(u.finished, s.maxFinished) + [u.queue[k]]
                           else if Awaited(s.waiters, s.queue[k].id) then Trimmed(u.finished, s.maxFinished)
                           else u.finished)
  }

  lemma JobsEnd(s: Jobs, k: nat, r: Result)
    requires JobsOk(s) && k < |s.queue| && s.maxFinished >= 2 && DistinctSockets(s.waiters)
    requires s.busy > 0 && FreeGpus(s, s.queue[k]).Some?
    ensures JobFinished(s, r, s.queue[k].id).Some?
    ensures var t := CheckNotify(JobFinished(s, r, s.queue[k].id).value, s.queue[k].id);
            t.Some? && EndedAs(s, k, r, t.value)
  {
    FindAt(s.queue, k);
    EndUnfold(s, r, s.queue[k].id);
    AfterEndFrame(s, k, r);
    RetireAnswers(AfterEnd(s, k, r), k, s.queue[k].id);
  }

  lemma HolderHasJob(s: Server, i: nat)
    requires Core(s) && i < |s.conns| && s.conns[i].hasJob
    ensures Find(s.jobs.queue, s.conns[i].jobid) >= 0
  {
    assert s.conns[i].jobid in HeldIds(s.conns);
  }

  /** When a job ends, each client waiting for it gets one WAITJOB_OK with its errorlevel, in the
      order they registered; the other waiters stay; a job that was not to be kept is not in the
      finished list afterwards. The job ends exactly when the slot counter is positive and
      (on a GPU build) its device ids are in range. */
  lemma EndAnswers(s: Server, i: nat, r: Result, lost: set<int>)
    requires Core(s) && WaitOk(s, lost) && i < |s.conns| && s.conns[i].hasJob
    ensures var id := s.conns[i].jobid;
            var k := Find(s.jobs.queue, id);
            && k >= 0
            && (EndJob(s, i, r).Some? <==> s.jobs.busy > 0 && FreeGpus(s.jobs, s.jobs.queue[k]).Some?)
            && (EndJob(s, i, r).Some? ==>
                  var t := EndJob(s, i, r).value.jobs;
                  && t.sent == s.jobs.sent + Answers(s.jobs.waiters, id, r.errorlevel)
                  && t.waiters == Others(s.jobs.waiters, id)
                  && (id in Ids(t.finished) <==> s.jobs.queue[k].keep))
  {
    HolderHasJob(s, i);
    var id := s.conns[i].jobid;
    var k := Find(s.jobs.queue, id);
    EndUnfold(s.jobs, r, id);
    if s.jobs.busy > 0 && FreeGpus(s.jobs, s.jobs.queue[k]).Some? {
      JobsEnd(s.jobs, k, r);
      AfterEndFrame(s.jobs, k, r);
      var u := AfterEnd(s.jobs, k, r);
      EndedIds(s.jobs, k, u, EndJob(s, i, r).value.jobs.finished);
    }
  }

  lemma EndedIds(s: Jobs, k: nat, u: Jobs, f: seq<Job>)
    requires k < |s.queue| && k < |u.queue| && u.queue[k].id == s.queue[k].id && s.queue[k].id !in Ids(u.finished)
    requires f == if s.queue[k].keep then Trimmed(u.finished, s.maxFinished) + [u.queue[k]]
                  else if Awaited(s.waiters, s.queue[k].id) then Trimmed(u.finished, s.maxFinished)
                  else u.finished
    ensures s.queue[k].id in Ids(f) <==> s.queue[k].keep
  {
    TrimmedIds(u.finished, s.maxFinished);
    if s.queue[k].keep {
      assert f[|f| - 1] == u.queue[k];
    }
  }
}
