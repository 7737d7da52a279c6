/** What each request brings about, said of the queue and the answers alone. */
module Requests {
  import opened JobTypes
  import opened JobSpec
  import opened JobInvariant
  import opened ServerSpec
  import opened ServerInvariant
  import opened Dependencies
  import Ops = JobOperations

  // ---- s_newjob ----

  /** The job that was submitted is the last of the queue, and is as its request asked for. */
  ghost predicate AsAsked(j: Job, r: Request) {
    && j.keep == r.keep && j.numSlots == r.numSlots && j.waitFreeGpus == r.waitFreeGpus
    && j.numGpus == (if r.waitFreeGpus then r.gpus else |r.gpuIds|)
    && (!r.waitFreeGpus ==> j.gpuIds == r.gpuIds)
  }

  lemma NewJobAsAsked(s: Jobs, r: Request)
    requires JobsOk(s) && NewJob(s, r).Some?
    ensures var t := NewJob(s, r).value;
            && |t.queue| == |s.queue| + 1
            && AsAsked(t.queue[|s.queue|], r)
            && (t.queue[|s.queue|].state.HoldingClient? <==> |s.queue| + 1 >= s.maxJobs)
            && (t.queue[|s.queue|].state.Allocating? <==> |s.queue| + 1 < s.maxJobs && r.gpus != 0)
            && (t.queue[|s.queue|].state.Queued? <==> |s.queue| + 1 < s.maxJobs && r.gpus == 0)
  {
    Ops.NewJobOk(s, r);
    AddDependenciesSame(s, Enqueued(s, r), r.dependOn);
  }

  lemma NewestIs(q: seq<Job>, k: nat)
    requires k < |q| && Newest(q, k) && q[k].id >= 0
    ensures MaxId(q) == q[k].id
  {
  }

  /** The same of the dependency on record, whatever else the request depends on. */
  lemma LastDepIs(s: Jobs)
    requires JobsOk(s)
    ensures forall k :: 0 <= k < |s.queue| && Newest(s.queue, k) && s.lastFinishedId <= s.queue[k].id ==>
              LastDep(s) == Dep(s.queue[k].id, true)
    ensures (forall k :: 0 <= k < |s.queue| ==> s.queue[k].id < s.lastFinishedId) ==>
              && LastDep(s).Last?
              && (s.finished == [] ==> LastDep(s) == Last(-1, s.lastErrorlevel))
              && (forall f :: 0 <= f < |s.finished| && Newest(s.finished, f) ==>
                    LastDep(s) == Last(s.finished[f].id,
                                       if s.lastFinishedId < s.finished[f].id then s.finished[f].errorlevel
                                       else s.lastErrorlevel))
  {
    forall k | 0 <= k < |s.queue| && Newest(s.queue, k) && s.lastFinishedId <= s.queue[k].id
      ensures LastDep(s) == Dep(s.queue[k].id, true)
    {
      assert LiveJob(s.queue[k], s.nextId);
      NewestIs(s.queue, k);
    }
    forall f | 0 <= f < |s.finished| && Newest(s.finished, f)
      ensures MaxId(s.finished) == s.finished[f].id && Find(s.finished, s.finished[f].id) == f
    {
      NewestIs(s.finished, f);
      FindAt(s.finished, f);
    }
  }

  /** -d on the newest job of the queue: the new job waits for it, and is told how it ends. */
  ghost predicate DependsOnQueued(s: Jobs, t: Jobs, k: nat)
    requires k < |s.queue| && |t.queue| == |s.queue| + 1
  {
    var me := t.queue[|s.queue|];
    && me.dependOn == [s.queue[k].id] && me.dependencyErrorlevel == 0
    && t.queue[k] == AddNotify(s.queue[k], me.id)
    && forall m :: 0 <= m < |s.queue| && m != k ==> t.queue[m] == s.queue[m]
  }

  /** -d when every job of the queue is older than the one that ended last: nobody is waited for; the
      errorlevel of the newest stored job counts if it is newer still, else that of the last end. */
  ghost predicate DependsOnPast(s: Jobs, t: Jobs)
    requires |t.queue| == |s.queue| + 1
  {
    var me := t.queue[|s.queue|];
    && t.queue[..|s.queue|] == s.queue && |me.dependOn| == 1
    && (s.finished == [] ==> me.dependOn == [-1])
    && (forall f :: 0 <= f < |s.finished| && Newest(s.finished, f) ==> me.dependOn == [s.finished[f].id])
    && (forall f :: 0 <= f < |s.finished| && Newest(s.finished, f) && s.finished[f].id > s.lastFinishedId ==>
          me.dependencyErrorlevel == Abs(s.finished[f].errorlevel))
    && ((forall f :: 0 <= f < |s.finished| ==> s.finished[f].id <= s.lastFinishedId) ==>
          me.dependencyErrorlevel == Abs(s.lastErrorlevel))
  }

  lemma OneDependency(s: Jobs, me: Job, d: int)
    ensures AddDependencies(s, me, [d]) == AddDependency(s, me, d)
  {
    assert [d][..0] == [] && [d] == [] + [d];
    assert AddDependencies(s, me, []) == Some((s, me));
  }

  lemma QueuedDependency(s: Jobs, r: Request, k: nat)
    requires JobsOk(s) && r.dependOn == [-1]
    requires k < |s.queue| && Newest(s.queue, k) && s.lastFinishedId <= s.queue[k].id
    ensures NewJob(s, r).Some? && |NewJob(s, r).value.queue| == |s.queue| + 1
    ensures DependsOnQueued(s, NewJob(s, r).value, k) && NewJob(s, r).value.queue[|s.queue|].id == s.nextId
  {
    OneDependency(s, Enqueued(s, r), -1);
    assert LiveJob(s.queue[k], s.nextId);
    NewestIs(s.queue, k);
    FindAt(s.queue, k);
    assert [] + [s.queue[k].id] == [s.queue[k].id];
  }

  /** Which job -d means. */
  lemma DependsOnLast(s: Jobs, r: Request)
    requires JobsOk(s) && r.dependOn == [-1]
    ensures NewJob(s, r).Some? && |NewJob(s, r).value.queue| == |s.queue| + 1
    ensures forall k :: 0 <= k < |s.queue| && Newest(s.queue, k) && s.lastFinishedId <= s.queue[k].id ==>
              DependsOnQueued(s, NewJob(s, r).value, k)
    ensures (forall k :: 0 <= k < |s.queue| ==> s.queue[k].id < s.lastFinishedId) ==>
              DependsOnPast(s, NewJob(s, r).value)
  {
    Ops.AddDependenciesDefined(s, Enqueued(s, r), r.dependOn);
    Ops.NewJobOk(s, r);
    forall k | 0 <= k < |s.queue| && Newest(s.queue, k) && s.lastFinishedId <= s.queue[k].id
      ensures DependsOnQueued(s, NewJob(s, r).value, k)
    {
      QueuedDependency(s, r, k);
    }
    if forall k :: 0 <= k < |s.queue| ==> s.queue[k].id < s.lastFinishedId { PastDependency(s, r); }
  }

  lemma PastDependency(s: Jobs, r: Request)
    requires JobsOk(s) && r.dependOn == [-1] && NewJob(s, r).Some? && |NewJob(s, r).value.queue| == |s.queue| + 1
    requires forall k :: 0 <= k < |s.queue| ==> s.queue[k].id < s.lastFinishedId
    ensures DependsOnPast(s, NewJob(s, r).value)
  {
    var me := Enqueued(s, r);
    OneDependency(s, me, -1);
    assert MaxId(s.queue) < s.lastFinishedId;
    assert NewJob(s, r).value.queue[..|s.queue|] == s.queue;
    forall f | 0 <= f < |s.finished| && Newest(s.finished, f)
      ensures MaxId(s.finished) == s.finished[f].id && Find(s.finished, s.finished[f].id) == f
    {
      NewestIs(s.finished, f);
      FindAt(s.finished, f);
    }
    assert forall x: int :: [] + [x] == [x];
    if forall f :: 0 <= f < |s.finished| ==> s.finished[f].id <= s.lastFinishedId {
      assert MaxId(s.finished) <= s.lastFinishedId;
    }
  }

  /** In particular -d means the job submitted just before, as long as that one is in the queue. */
  lemma DependsOnJustBefore(s: Jobs, r: Request, k: nat)
    requires JobsOk(s) && r.dependOn == [-1] && k < |s.queue| && s.queue[k].id == s.nextId - 1
    ensures NewJob(s, r).Some? && |NewJob(s, r).value.queue| == |s.queue| + 1
    ensures NewJob(s, r).value.queue[|s.queue|].dependOn == [s.nextId - 1]
    ensures NewJob(s, r).value.queue[k].notifyTo == s.queue[k].notifyTo + [s.nextId]
  {
    NewestQueued(s, k);
    QueuedDependency(s, r, k);
    NotifiesNext(s, NewJob(s, r).value, k);
  }

  lemma NewestQueued(s: Jobs, k: nat)
    requires ListsOk(s) && k < |s.queue| && s.queue[k].id == s.nextId - 1
    ensures Newest(s.queue, k)
  {
    forall m | 0 <= m < |s.queue| ensures s.queue[m].id <= s.queue[k].id { assert LiveJob(s.queue[m], s.nextId); }
  }

  lemma NotifiesNext(s: Jobs, t: Jobs, k: nat)
    requires k < |s.queue| && |t.queue| == |s.queue| + 1 && DependsOnQueued(s, t, k)
    requires t.queue[|s.queue|].id == s.nextId
    ensures t.queue[|s.queue|].dependOn == [s.queue[k].id]
    ensures t.queue[k].notifyTo == s.queue[k].notifyTo + [s.nextId]
  {
  }

  // ---- s_wait_job and s_wait_running_job ----

  /** The answer to a wait for a job that has ended is the errorlevel stored with it, at once; the wait
      for a job of the queue is registered; for no job at all there is a line of text. */
  lemma WaitsForId(s: Jobs, socket: int, id: int)
    requires ListsOk(s) && id != -1
    ensures var t := WaitJob(s, socket, id);
            && (forall k :: 0 <= k < |s.queue| && s.queue[k].id == id ==>
                  t == s.(waiters := s.waiters + [Waiter(socket, id)]))
            && (forall f :: 0 <= f < |s.finished| && s.finished[f].id == id ==>
                  t == s.(sent := s.sent + [WaitJobOk(socket, s.finished[f].errorlevel)]))
            && (id !in Ids(s.queue) + Ids(s.finished) ==> t == s.(sent := s.sent + [Line(socket)]))
    ensures WaitRunningJob(s, socket, id) == Some(WaitJob(s, socket, id))
  {
    forall k | 0 <= k < |s.queue| && s.queue[k].id == id
      ensures WaitJob(s, socket, id) == s.(waiters := s.waiters + [Waiter(socket, id)])
    {
      FindAt(s.queue, k);
      assert LiveJob(s.queue[k], s.nextId);
    }
    forall f | 0 <= f < |s.finished| && s.finished[f].id == id
      ensures WaitJob(s, socket, id) == s.(sent := s.sent + [WaitJobOk(socket, s.finished[f].errorlevel)])
    {
      FindAt(s.finished, f);
      assert s.finished[f].id in Ids(s.finished);
    }
  }

  /** Without an id the last job of the queue is meant, or the last that ended if the queue is empty. */
  lemma WaitsForLast(s: Jobs, socket: int)
    requires ListsOk(s)
    ensures var t := WaitJob(s, socket, -1);
            if s.queue != [] then t == s.(waiters := s.waiters + [Waiter(socket, s.queue[|s.queue| - 1].id)])
            else if s.finished != [] then
              t == s.(sent := s.sent + [WaitJobOk(socket, s.finished[|s.finished| - 1].errorlevel)])
            else t == s.(sent := s.sent + [Line(socket)])
  {
    if s.queue != [] { assert LiveJob(s.queue[|s.queue| - 1], s.nextId); }
  }

  /** The wait for the running job takes the head of the queue while slots are busy, else the last that ended. */
  lemma WaitsForRunning(s: Jobs, socket: int)
    requires ListsOk(s)
    ensures var t := WaitRunningJob(s, socket, -1);
            if s.busy > 0 && s.queue == [] then t == None
            else if s.busy > 0 then t == Some(s.(waiters := s.waiters + [Waiter(socket, s.queue[0].id)]))
            else if s.finished != [] then
              t == Some(s.(sent := s.sent + [WaitJobOk(socket, s.finished[|s.finished| - 1].errorlevel)]))
            else t == Some(s.(sent := s.sent + [Line(socket)]))
  {
    if s.queue != [] { assert LiveJob(s.queue[0], s.nextId); }
  }

  // ---- queries ----

  /** A question gets one answer, on its own connection, and changes no job. Some of them end the connection,
      and no other one. */
  lemma QueryAnswered(s: Server, i: nat, m: Msg)
    requires Core(s) && i < |s.conns| && !s.conns[i].hasJob && ReadMsg(s, i, m).Some?
    requires m.Query? || m.ClosingQuery? || m.Info? || m.AskOutput?
    ensures var t, socket := ReadMsg(s, i, m).value, s.conns[i].socket;
            && t.jobs == s.jobs.(sent := s.jobs.sent + [Answer(socket)])
            && (HasSocket(t.conns, socket) <==> m.Query? || m.AskOutput?)
            && forall other :: other != socket ==> (HasSocket(t.conns, other) <==> HasSocket(s.conns, other))
  {
    if m.ClosingQuery? || m.Info? { LeavesAlone(s.conns, i); }
  }

  lemma LeavesAlone(conns: seq<Conn>, i: nat)
    requires ConnsOk(conns) && i < |conns|
    ensures var r := RemoveAt(conns, i);
            && !HasSocket(r, conns[i].socket)
            && forall other :: other != conns[i].socket ==> (HasSocket(r, other) <==> HasSocket(conns, other))
  {
    var r := RemoveAt(conns, i);
    RemoveAtElements(conns, i);
    forall other | other != conns[i].socket && HasSocket(conns, other) ensures HasSocket(r, other) {
      var m :| 0 <= m < |conns| && conns[m].socket == other;
      assert r[if m < i then m else m - 1] == conns[m];
    }
  }

  // ---- s_clear_finished ----

  /** After CLEAR_FINISHED no job that has ended is known any more: a wait for one is answered by a line of
      text, it cannot be removed, and a job that depends on it counts it as failed. */
  lemma ClearForgets(s: Server, i: nat, id: int, socket: int, r: Request)
    requires JobsOk(s.jobs) && i < |s.conns| && 0 <= id < s.jobs.nextId && id !in Ids(s.jobs.queue)
    requires r.dependOn == [id]
    ensures ReadMsg(s, i, ClearFinished).Some?
    ensures var t := ReadMsg(s, i, ClearFinished).value.jobs;
            && t == s.jobs.(finished := t.finished)
            && WaitJob(t, socket, id) == t.(sent := t.sent + [Line(socket)])
            && RemoveJob(t, socket, id) == Some((t.(sent := t.sent + [Line(socket)]), -1))
            && NewJob(t, r).Some?
            && NewJob(t, r).value.queue == t.queue + [Enqueued(t, r).(dependOn := [id], dependencyErrorlevel := 1)]
  {
    var t := ReadMsg(s, i, ClearFinished).value.jobs;
    assert forall k :: 0 <= k < |t.queue| ==> t.queue[k].id in Ids(s.jobs.queue);
    OneDependency(t, Enqueued(t, r), id);
    assert [] + [id] == [id];
  }

  // ---- s_remove_job ----

  /** The queue without the job at position `k`: the others stay in order, and only what they know of
      failures may change. */
  ghost predicate OthersStay(q: seq<Job>, k: nat, t: seq<Job>)
    requires k < |q|
  {
    && |t| == |q| - 1
    && forall i :: 0 <= i < |t| ==>
         t[i] == q[if i < k then i else i + 1].(dependencyErrorlevel := t[i].dependencyErrorlevel)
  }

  lemma QueuedRemoved(s: Jobs, socket: int, k: nat)
    requires k < |s.queue| && RemoveQueuedAt(s, socket, k).Some?
    ensures OthersStay(s.queue, k, RemoveQueuedAt(s, socket, k).value.queue)
  {
    var s1 := s.(queue := s.queue[k := Dropped(s.queue[k])], lastErrorlevel := -1);
    var u := NotifyAll(s1, s.queue[k].notifyTo, -1);
    NotifyAllSame(s1, s.queue[k].notifyTo, -1);
    RemoveAtElements(u.queue, k);
  }

  /** Without an id the last job of the queue goes, unless it is the head or runs; the queue being empty,
      the job that ended last goes. */
  lemma RemovesLast(s: Jobs, socket: int)
    requires JobsOk(s) && RemoveJob(s, socket, -1).Some?
    ensures var (t, removed) := RemoveJob(s, socket, -1).value;
            var n := |s.queue| - 1;
            if n > 0 && !s.queue[n].state.Running? then
              && removed == s.queue[n].id && OthersStay(s.queue, n, t.queue) && removed !in Ids(t.queue)
            else if n < 0 && s.finished != [] then
              removed == s.finished[|s.finished| - 1].id && t.queue == [] && removed !in Ids(t.finished)
            else removed == -1 && t == s.(sent := s.sent + [Line(socket)])
  {
    Ops.RemoveJobOk(s, socket, -1);
    var n := |s.queue| - 1;
    if n > 0 && !s.queue[n].state.Running? {
      QueuedRemoved(s, socket, n);
    } else if n < 0 && s.finished != [] {
      StoredRemoved(s, socket, |s.finished| - 1);
    }
  }

  lemma StoredRemoved(s: Jobs, socket: int, k: nat)
    requires JobsOk(s) && k < |s.finished| && RemoveFinishedAt(s, socket, k).Some?
    ensures var t := RemoveFinishedAt(s, socket, k).value;
            s.finished[k].id !in Ids(t.finished) && SameJobs(s.queue, t.queue)
  {
    var s1 := s.(finished := s.finished[k := Dropped(s.finished[k])], lastErrorlevel := -1);
    var u := NotifyAll(s1, s.finished[k].notifyTo, -1);
    Ops.RemoveFinishedJob(s, k);
    NotifyAllSame(s1, s.finished[k].notifyTo, -1);
    Ops.CheckNotifyOk(u, 0, 0);
    var v := CheckNotify(u, 0).value;
    RemoveFinishedOk(v, Find(v.finished, s.finished[k].id));
  }

  /** The removal of a stored job counts as a failure for exactly the queued jobs it notified, however well
      it had ended. */
  lemma StoredRemovalFails(s: Jobs, socket: int, k: nat, i: nat)
    requires JobsOk(s) && k < |s.finished| && i < |s.queue| && RemoveFinishedAt(s, socket, k).Some?
    ensures var t := RemoveFinishedAt(s, socket, k).value.queue;
            && |t| == |s.queue| && t[i] == s.queue[i].(dependencyErrorlevel := t[i].dependencyErrorlevel)
            && t[i].dependencyErrorlevel >= s.queue[i].dependencyErrorlevel
            && (t[i].dependencyErrorlevel > s.queue[i].dependencyErrorlevel <==>
                  Contains(s.finished[k].notifyTo, s.queue[i].id))
  {
    var s1 := s.(finished := s.finished[k := Dropped(s.finished[k])], lastErrorlevel := -1);
    NotifyAllSame(s1, s.finished[k].notifyTo, -1);
    NotifyEffect(s1, s.finished[k].notifyTo, -1);
  }

  /** With an id that job goes, from the queue, unless it is the head or runs, or from the stored ones. */
  lemma RemovesId(s: Jobs, socket: int, id: int)
    requires JobsOk(s) && id != -1 && RemoveJob(s, socket, id).Some?
    ensures var (t, removed) := RemoveJob(s, socket, id).value;
            && (forall k :: 0 <= k < |s.queue| && s.queue[k].id == id ==>
                  if k > 0 && !s.queue[k].state.Running? then removed == id && OthersStay(s.queue, k, t.queue)
                  else removed == -1 && t == s.(sent := s.sent + [Line(socket)]))
            && (id in Ids(s.finished) ==> removed == id && SameJobs(s.queue, t.queue) && id !in Ids(t.finished))
            && (id !in Ids(s.queue) + Ids(s.finished) ==> removed == -1 && t == s.(sent := s.sent + [Line(socket)]))
  {
    var (t, removed) := RemoveJob(s, socket, id).value;
    forall k | 0 <= k < |s.queue| && s.queue[k].id == id
      ensures if k > 0 && !s.queue[k].state.Running? then removed == id && OthersStay(s.queue, k, t.queue)
              else removed == -1 && t == s.(sent := s.sent + [Line(socket)])
    {
      FindAt(s.queue, k);
      if k > 0 && !s.queue[k].state.Running? { QueuedRemoved(s, socket, k); }
    }
    if id in Ids(s.finished) {
      var f :| 0 <= f < |s.finished| && s.finished[f].id == id;
      FindAt(s.finished, f);
      StoredRemoved(s, socket, f);
    }
  }

  // ---- order of the queue ----

  /** URGENT puts the job, the last one if no id is given, behind the head; all others keep their order. */
  lemma UrgentMoves(s: Jobs, socket: int, id: int, k: nat)
    requires Distinct(s.queue) && 0 < k < |s.queue|
    requires if id == -1 then k == |s.queue| - 1 else s.queue[k].id == id
    ensures MoveUrgent(s, socket, id).Some?
    ensures var t := MoveUrgent(s, socket, id).value;
            && t == s.(queue := t.queue, sent := s.sent + [UrgentOk(socket)]) && |t.queue| == |s.queue|
            && t.queue[0] == s.queue[0] && t.queue[1] == s.queue[k]
            && (forall i :: 0 < i < k ==> t.queue[i + 1] == s.queue[i])
            && (forall i :: k < i < |s.queue| ==> t.queue[i] == s.queue[i])
  {
    if id != -1 { FindAt(s.queue, k); }
    Ops.MoveSecondElements(s.queue, k);
  }

  /** SWAP exchanges the places of two jobs behind the head and moves no other. */
  lemma SwapExchanges(s: Jobs, socket: int, a: nat, b: nat)
    requires Distinct(s.queue) && 0 < a < |s.queue| && 0 < b < |s.queue|
    ensures var t := SwapJobs(s, socket, s.queue[a].id, s.queue[b].id);
            && t == s.(queue := t.queue, sent := s.sent + [SwapJobsOk(socket)]) && |t.queue| == |s.queue|
            && t.queue[a] == s.queue[b] && t.queue[b] == s.queue[a]
            && forall i :: 0 <= i < |s.queue| && i != a && i != b ==> t.queue[i] == s.queue[i]
  {
    FindAt(s.queue, a);
    FindAt(s.queue, b);
  }

  // ---- the device test ----

  /** Exactly the devices of the list that nobody claimed, as often as they are in the list. */
  lemma {:induction false} UnclaimedCount(list: seq<int>, used: set<int>, g: int)
    ensures multiset(Unclaimed(list, used))[g] == if g in used then 0 else multiset(list)[g]
  {
    if list == [] {
    } else {
      var n := |list| - 1;
      assert list == list[..n] + [list[n]];
      UnclaimedCount(list[..n], used, g);
    }
  }

  /** Taking the first `n` of them means taking all of them from a front part of the list. */
  lemma {:induction false} TakenPrefix(list: seq<int>, used: set<int>, n: nat) returns (m: nat)
    requires n <= |Unclaimed(list, used)|
    ensures m <= |list| && Unclaimed(list[..m], used) == Unclaimed(list, used)[..n]
  {
    if n == |Unclaimed(list, used)| {
      m := |list|;
      assert list[..m] == list;
    } else {
      var l := |list| - 1;
      m := TakenPrefix(list[..l], used, n);
      assert list[..l][..m] == list[..m];
    }
  }

  /** The device test takes the first devices of the list that nobody claimed, and fails when the list
      has fewer of them than the job asks for. */
  lemma TestTakesFirst(s: Jobs, j: Job, i: nat, query: GpuQuery) returns (m: nat)
    requires s.build.Gpu? && query.FreeLists? && i < |query.orders| && j.numGpus != 0 && j.waitFreeGpus
    ensures m <= |query.orders[i]|
    ensures Tentative(s, j, i, query).None? <==> |Unclaimed(query.orders[i], s.usedGpus)| < j.numGpus
    ensures Tentative(s, j, i, query).Some? ==>
              var k := Tentative(s, j, i, query).value;
              && k == j.(gpuIds := k.gpuIds) && |k.gpuIds| == j.numGpus
              && k.gpuIds == Unclaimed(query.orders[i][..m], s.usedGpus)
  {
    m := 0;
    if Tentative(s, j, i, query).Some? { m := TakenPrefix(query.orders[i], s.usedGpus, j.numGpus); }
  }
}
