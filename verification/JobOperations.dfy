/** Every operation of jobs.c keeps `JobsOk`, and what it does to the ids in the run queue. */
module JobOperations {
  import opened JobTypes
  import opened JobSpec
  import opened JobInvariant

  lemma RemoveSame(a: seq<Job>, b: seq<Job>, k: nat)
    requires |a| == |b| && k < |a|
    requires forall i :: 0 <= i < |a| && i != k ==> SameJob(a[i], b[i])
    ensures SameJobs(RemoveAt(a, k), RemoveAt(b, k))
  {
    RemoveAtElements(a, k);
    RemoveAtElements(b, k);
  }

  /** RecordEnd and the notifications, seen past the job at position `k`. */
  lemma RecordEndOk(s: Jobs, k: nat, r: Result)
    requires JobsOk(s) && k < |s.queue|
    ensures var t := NotifyAll(RecordEnd(s, k, r), s.queue[k].notifyTo, r.errorlevel);
            && ListsOk(t.(queue := RemoveAt(t.queue, k)))
            && Ids(RemoveAt(t.queue, k)) == Ids(s.queue) - {s.queue[k].id}
            && Ids(t.finished) == Ids(s.finished)
            && t.busy == RunSlots(RemoveAt(t.queue, k))
            && t.queue[k].id == s.queue[k].id && IsDone(t.queue[k].state)
            && t.queue[k].keep == s.queue[k].keep && t.queue[k].errorlevel == r.errorlevel
  {
    var s1 := RecordEnd(s, k, r);
    var t := NotifyAll(s1, s.queue[k].notifyTo, r.errorlevel);
    NotifyAllSame(s1, s.queue[k].notifyTo, r.errorlevel);
    var s0 := s.(queue := RemoveAt(s.queue, k));
    RemoveQueuedOk(s, k);
    RunSlotsRemove(s.queue, k);
    RemoveSame(s.queue, t.queue, k);
    SameJobsOk(s0, t.(queue := RemoveAt(t.queue, k)));
  }

  /** job_finished: the slots of the job are given back and its id leaves the queue. */
  lemma JobFinishedOk(s: Jobs, r: Result, id: int)
    requires JobsOk(s) && JobFinished(s, r, id).Some?
    ensures var t := JobFinished(s, r, id).value;
            && JobsOk(t)
            && id in Ids(s.queue) && Ids(t.queue) == Ids(s.queue) - {id}
            && Ids(t.finished) <= Ids(s.finished) + {id}
  {
    var k := Find(s.queue, id);
    var s1 := FreeGpus(s, s.queue[k]).value;
    RecordEndOk(s1, k, r);
    var s2 := NotifyAll(RecordEnd(s1, k, r), s.queue[k].notifyTo, r.errorlevel);
    FinishOk(s2.(queue := RemoveAt(s2.queue, k)), s2.queue[k], JobFinished(s, r, id).value);
  }

  lemma FinishOk(t1: Jobs, j: Job, t: Jobs)
    requires ListsOk(t1) && IsDone(j.state) && 0 <= j.id < t1.nextId
    requires j.id !in Ids(t1.queue) && j.id !in Ids(t1.finished)
    requires t.nextId == t1.nextId && t.queue == t1.queue
    requires t.finished == t1.finished || NewFinished(t1.finished, j, t1.maxFinished) == Some(t.finished)
    ensures ListsOk(t) && Ids(t.finished) <= Ids(t1.finished) + {j.id}
  {
    if t.finished != t1.finished {
      NewFinishedOk(t1.finished, j, t1.maxFinished, t1.nextId);
    }
  }

  lemma {:induction false} CheckNotifyOk(s: Jobs, id: int, i: nat)
    requires ListsOk(s) && CheckNotifyFrom(s, id, i).Some?
    ensures var t := CheckNotifyFrom(s, id, i).value;
            ListsOk(t) && Ids(t.finished) <= Ids(s.finished)
    decreases |s.waiters| - i
  {
    if i >= |s.waiters| {
    } else {
      if s.waiters[i].jobid != id || !IsDone(GetJob(s, id).value.state) {
        CheckNotifyOk(s, id, i + 1);
      } else {
        var j := GetJob(s, id).value;
        var t := AnswerWaiter(s, s.waiters[i], j).value;
        assert ListsOk(t) && Ids(t.finished) <= Ids(s.finished) by {
          var f := Find(s.finished, id);
          if f >= 0 {
            RemoveFinishedOk(s, f);
          }
        }
        CheckNotifyOk(t, id, i);
      }
    }
  }

  lemma EndOk(s: Jobs, r: Result, id: int)
    requires JobsOk(s) && JobFinished(s, r, id).Some? && CheckNotify(JobFinished(s, r, id).value, id).Some?
    ensures var t := CheckNotify(JobFinished(s, r, id).value, id).value;
            JobsOk(t) && id in Ids(s.queue) && Ids(t.queue) == Ids(s.queue) - {id}
  {
    JobFinishedOk(s, r, id);
    CheckNotifyOk(JobFinished(s, r, id).value, id, 0);
  }

  /** s_newjob: one job more, under the next id. */
  lemma NewJobOk(s: Jobs, r: Request)
    requires JobsOk(s) && NewJob(s, r).Some?
    ensures var t := NewJob(s, r).value;
            && JobsOk(t)
            && t.nextId == s.nextId + 1 && s.nextId !in Ids(s.queue)
            && Ids(t.queue) == Ids(s.queue) + {s.nextId}
            && t == s.(queue := t.queue, nextId := t.nextId)
            && |t.queue| == |s.queue| + 1
            && t.queue[|s.queue|].id == s.nextId && t.queue[|s.queue|].state == Enqueued(s, r).state
            && SameJobs(s.queue, t.queue[..|s.queue|])
  {
    var q, me := NewJobQueue(s, r);
    SameJobsOk(s, s.(queue := q));
    AppendedOk(s.(queue := q), me);
    assert (q + [me])[..|s.queue|] == q;
  }

  lemma NewJobQueue(s: Jobs, r: Request) returns (q: seq<Job>, me: Job)
    requires JobsOk(s) && NewJob(s, r).Some?
    ensures NewJob(s, r).value == s.(queue := q + [me], nextId := s.nextId + 1)
    ensures SameJobs(s.queue, q) && LiveJob(me, s.nextId + 1) && me.id == s.nextId
    ensures me.state == Enqueued(s, r).state
  {
    var j := Enqueued(s, r);
    AddDependenciesSame(s, j, r.dependOn);
    q := AddDependencies(s, j, r.dependOn).value.0.queue;
    me := AddDependencies(s, j, r.dependOn).value.1;
  }

  lemma AppendedOk(s: Jobs, me: Job)
    requires JobsOk(s) && LiveJob(me, s.nextId + 1) && me.id == s.nextId && !me.state.Running?
    ensures JobsOk(s.(queue := s.queue + [me], nextId := s.nextId + 1))
    ensures Ids(s.queue + [me]) == Ids(s.queue) + {me.id} && me.id !in Ids(s.queue)
  {
    IdsAppend(s.queue, me);
    RunSlotsConcat(s.queue, [me]);
    assert [me][..0] == [];
    forall i | 0 <= i < |s.queue| ensures LiveJob(s.queue[i], s.nextId + 1) {
      assert LiveJob(s.queue[i], s.nextId);
    }
  }

  /** The dependency loop never finds a stored job gone. */
  lemma {:induction false} AddDependenciesDefined(s: Jobs, me: Job, deps: seq<int>)
    requires s.lastFinishedId >= 0
    ensures AddDependencies(s, me, deps).Some?
    ensures AddDependencies(s, me, deps).value.0 == s.(queue := AddDependencies(s, me, deps).value.0.queue)
  {
    if deps == [] {
    } else {
      AddDependenciesDefined(s, me, deps[..|deps| - 1]);
    }
  }

  lemma ChangeStateOk(s: Jobs, k: nat, j: Job)
    requires ListsOk(s) && k < |s.queue| && j == s.queue[k].(state := j.state) && !IsDone(j.state)
    ensures ListsOk(s.(queue := s.queue[k := j])) && Ids(s.queue[k := j]) == Ids(s.queue)
    ensures RunSlots(s.queue[k := j]) + (if s.queue[k].state.Running? then s.queue[k].numSlots else 0)
         == RunSlots(s.queue) + (if j.state.Running? then j.numSlots else 0)
  {
    var q' := s.queue[k := j];
    IdsSame(s.queue, q');
    RunSlotsUpdate(s.queue, k, j);
    forall i | 0 <= i < |q'| ensures LiveJob(q'[i], s.nextId) {
      assert LiveJob(s.queue[i], s.nextId);
    }
  }

  /** next_run_job raises `busy` for a job that is not running yet and fits the free slots. */
  lemma NextRunJobOk(s: Jobs, query: GpuQuery)
    requires JobsOk(s) && NextRunJob(s, query).Some?
    ensures var (t, k) := NextRunJob(s, query).value;
            && ListsOk(t) && Ids(t.queue) == Ids(s.queue) && SameJobs(s.queue, t.queue)
            && t.maxSlots == s.maxSlots && t.nextId == s.nextId && t.lastFinishedId == s.lastFinishedId
            && t.busy == RunSlots(t.queue) + (if k >= 0 then t.queue[k].numSlots else 0)
            && (k >= 0 ==> IsRunnable(t.queue[k]) && t.busy <= t.maxSlots)
  {
    var u := NextIs(s, query);
    SameJobsOk(s, u);
    var (t, k) := NextRunJob(s, query).value;
    assert t.queue == u.queue && t.finished == u.finished && t.nextId == u.nextId;
  }

  /** What the choice starts from: the state with the device ids the scan wrote. */
  lemma NextIs(s: Jobs, query: GpuQuery) returns (u: Jobs)
    requires NextRunJob(s, query).Some?
    ensures u == s.(queue := u.queue) && SameJobs(s.queue, u.queue)
    ensures var (t, k) := NextRunJob(s, query).value;
            && t == u.(busy := t.busy, usedGpus := t.usedGpus)
            && (k < 0 ==> t.busy == s.busy)
            && (k >= 0 ==>
                  && t.busy == s.busy + t.queue[k].numSlots && IsRunnable(t.queue[k])
                  && t.queue[k].numSlots <= s.maxSlots - s.busy)
  {
    if s.maxSlots - s.busy <= 0 || s.queue == [] {
      u := s;
    } else {
      ScanSame(s, 0, query);
      u := Scan(s, 0, query).0;
      var k := Scan(s, 0, query).1;
      if k >= 0 { assert SameJob(s.queue[k], u.queue[k]); }
    }
  }

  /** Two queues with the same jobs in another order. */
  lemma PermutedOk(s: Jobs, q: seq<Job>)
    requires ListsOk(s) && |q| == |s.queue|
    requires forall i :: 0 <= i < |q| ==> q[i] in s.queue
    requires Distinct(q) && RunSlots(q) == RunSlots(s.queue)
    requires Ids(q) == Ids(s.queue)
    ensures ListsOk(s.(queue := q))
  {
    forall i | 0 <= i < |q| ensures LiveJob(q[i], s.nextId) {
      var m :| 0 <= m < |s.queue| && s.queue[m] == q[i];
    }
  }

  lemma SwapRunSlots(q: seq<Job>, a: nat, b: nat)
    requires a < |q| && b < |q|
    ensures RunSlots(q[a := q[b]][b := q[a]]) == RunSlots(q)
  {
    RunSlotsUpdate(q, a, q[b]);
    RunSlotsUpdate(q[a := q[b]], b, q[a]);
  }

  lemma SwapJobsOk(s: Jobs, socket: int, id1: int, id2: int)
    requires JobsOk(s)
    ensures JobsOk(SwapJobs(s, socket, id1, id2))
    ensures Ids(SwapJobs(s, socket, id1, id2).queue) == Ids(s.queue)
    ensures forall i :: 0 <= i < |SwapJobs(s, socket, id1, id2).queue| ==>
              SwapJobs(s, socket, id1, id2).queue[i] in s.queue
  {
    var a, b := Find(s.queue, id1), Find(s.queue, id2);
    if a > 0 && b > 0 {
      var q := s.queue[a := s.queue[b]][b := s.queue[a]];
      SwapRunSlots(s.queue, a, b);
      forall x ensures x in Ids(q) <==> x in Ids(s.queue) {
        if x in Ids(s.queue) {
          var m :| 0 <= m < |q| && s.queue[m].id == x;
          assert q[if m == a then b else if m == b then a else m].id == x;
        }
      }
      PermutedOk(s, q);
    }
  }

  lemma MoveSecondElements(q: seq<Job>, k: nat)
    requires 0 < k < |q|
    ensures |MoveSecond(q, k)| == |q|
    ensures forall i :: 0 <= i < |q| ==>
      MoveSecond(q, k)[i] == q[if i == 0 || i > k then i else if i == 1 then k else i - 1]
  {
  }

  lemma RunSlotsFour(a: seq<Job>, b: seq<Job>, c: seq<Job>, d: seq<Job>)
    ensures RunSlots(a + (b + (c + d))) == RunSlots(a) + RunSlots(b) + RunSlots(c) + RunSlots(d)
  {
    RunSlotsConcat(c, d);
    RunSlotsConcat(b, c + d);
    RunSlotsConcat(a, b + (c + d));
  }

  lemma MoveSecondParts(q: seq<Job>, k: nat) returns (a: seq<Job>, b: seq<Job>, c: seq<Job>, d: seq<Job>)
    requires 0 < k < |q|
    ensures q == a + (b + (c + d)) && MoveSecond(q, k) == a + (c + (b + d))
  {
    a, b, c, d := [q[0]], q[1..k], [q[k]], q[k + 1..];
  }

  lemma ReorderedSlots(q: seq<Job>, r: seq<Job>, a: seq<Job>, b: seq<Job>, c: seq<Job>, d: seq<Job>)
    requires q == a + (b + (c + d)) && r == a + (c + (b + d))
    ensures RunSlots(r) == RunSlots(q)
  {
    RunSlotsFour(a, b, c, d);
    RunSlotsFour(a, c, b, d);
  }

  lemma MoveSecondSlots(q: seq<Job>, k: nat)
    requires 0 < k < |q|
    ensures RunSlots(MoveSecond(q, k)) == RunSlots(q)
  {
    var a, b, c, d := MoveSecondParts(q, k);
    ReorderedSlots(q, MoveSecond(q, k), a, b, c, d);
  }

  /** Where the job at position `m` goes when the job at position `k` is moved to position 1. */
  function SecondTarget(k: nat, m: nat): nat { if m == 0 || m > k then m else if m == k then 1 else m + 1 }

  lemma MoveSecondIds(q: seq<Job>, k: nat)
    requires 0 < k < |q| && Distinct(q)
    ensures Distinct(MoveSecond(q, k)) && Ids(MoveSecond(q, k)) == Ids(q)
  {
    var r := MoveSecond(q, k);
    MoveSecondElements(q, k);
    forall x | x in Ids(q) ensures x in Ids(r) {
      var m :| 0 <= m < |q| && q[m].id == x;
      assert r[SecondTarget(k, m)].id == x;
    }
    forall i, j | 0 <= i < j < |r| ensures r[i].id != r[j].id {
      var a := if i == 0 || i > k then i else if i == 1 then k else i - 1;
      var b := if j == 0 || j > k then j else if j == 1 then k else j - 1;
      assert r[i] == q[a] && r[j] == q[b] && a != b;
    }
  }

  lemma MoveUrgentOk(s: Jobs, socket: int, id: int)
    requires JobsOk(s) && MoveUrgent(s, socket, id).Some?
    ensures JobsOk(MoveUrgent(s, socket, id).value)
    ensures Ids(MoveUrgent(s, socket, id).value.queue) == Ids(s.queue)
    ensures forall i :: 0 <= i < |MoveUrgent(s, socket, id).value.queue| ==>
              MoveUrgent(s, socket, id).value.queue[i] in s.queue
  {
    var k := if id == -1 then |s.queue| - 1 else Find(s.queue, id);
    if k > 0 && |s.queue| > 1 {
      MoveSecondOk(s, k);
    }
  }

  lemma MoveSecondOk(s: Jobs, k: nat)
    requires JobsOk(s) && 0 < k < |s.queue|
    ensures var q := MoveSecond(s.queue, k);
            && JobsOk(s.(queue := q)) && Ids(q) == Ids(s.queue)
            && forall i :: 0 <= i < |q| ==> q[i] in s.queue
  {
    MoveSecondElements(s.queue, k);
    MoveSecondSlots(s.queue, k);
    MoveSecondIds(s.queue, k);
    PermutedOk(s, MoveSecond(s.queue, k));
  }

  /** s_remove_job on a queued job: its id leaves the queue and nothing else does. */
  lemma RemoveQueued(s: Jobs, k: nat)
    requires JobsOk(s) && 0 < k < |s.queue| && !s.queue[k].state.Running?
    ensures var t := NotifyAll(s.(queue := s.queue[k := Dropped(s.queue[k])], lastErrorlevel := -1),
                               s.queue[k].notifyTo, -1);
            && ListsOk(t.(queue := RemoveAt(t.queue, k)))
            && Ids(RemoveAt(t.queue, k)) == Ids(s.queue) - {s.queue[k].id}
            && Ids(t.finished) == Ids(s.finished)
            && RunSlots(RemoveAt(t.queue, k)) == s.busy
  {
    var s1 := s.(queue := s.queue[k := Dropped(s.queue[k])], lastErrorlevel := -1);
    var t := NotifyAll(s1, s.queue[k].notifyTo, -1);
    NotifyAllSame(s1, s.queue[k].notifyTo, -1);
    RemoveQueuedOk(s, k);
    RunSlotsRemove(s.queue, k);
    RemoveSame(s.queue, t.queue, k);
    SameJobsOk(s.(queue := RemoveAt(s.queue, k)), t.(queue := RemoveAt(t.queue, k)));
  }

  lemma RemoveFinishedJob(s: Jobs, k: nat)
    requires JobsOk(s) && k < |s.finished|
    ensures var t := NotifyAll(s.(finished := s.finished[k := Dropped(s.finished[k])], lastErrorlevel := -1),
                               s.finished[k].notifyTo, -1);
            ListsOk(t) && Ids(t.queue) == Ids(s.queue) && RunSlots(t.queue) == s.busy
  {
    var s1 := s.(finished := s.finished[k := Dropped(s.finished[k])], lastErrorlevel := -1);
    IdsSame(s.finished, s1.finished);
    assert ListsOk(s1);
    NotifyAllSame(s1, s.finished[k].notifyTo, -1);
    SameJobsOk(s1, NotifyAll(s1, s.finished[k].notifyTo, -1));
  }

  lemma RemoveQueuedAtOk(s: Jobs, socket: int, k: nat)
    requires JobsOk(s) && 0 < k < |s.queue| && !s.queue[k].state.Running? && RemoveQueuedAt(s, socket, k).Some?
    ensures var t := RemoveQueuedAt(s, socket, k).value;
            JobsOk(t) && Ids(t.queue) == Ids(s.queue) - {s.queue[k].id}
  {
    RemoveQueued(s, k);
    var s1 := NotifyAll(s.(queue := s.queue[k := Dropped(s.queue[k])], lastErrorlevel := -1), s.queue[k].notifyTo, -1);
    FinishedShrinks(s1, 0, 0);
    var s2 := CheckNotify(s1, 0).value;
    ShrunkOk(s1.(queue := RemoveAt(s1.queue, k)), s2.(queue := RemoveAt(s2.queue, k)));
  }

  lemma RemoveFinishedAtOk(s: Jobs, socket: int, k: nat)
    requires JobsOk(s) && k < |s.finished| && RemoveFinishedAt(s, socket, k).Some?
    ensures var t := RemoveFinishedAt(s, socket, k).value;
            JobsOk(t) && Ids(t.queue) == Ids(s.queue) && s.finished[k].id !in Ids(s.queue)
  {
    var j := s.finished[k];
    RemoveFinishedJob(s, k);
    var s1 := NotifyAll(s.(finished := s.finished[k := Dropped(j)], lastErrorlevel := -1), j.notifyTo, -1);
    CheckNotifyOk(s1, 0, 0);
    var s2 := CheckNotify(s1, 0).value;
    RemoveFinishedOk(s2, Find(s2.finished, j.id));
    assert j.id in Ids(s.finished);
  }

  /** s_remove_job answers with the id removed; it takes that id out of the queue and no other. */
  lemma RemoveJobOk(s: Jobs, socket: int, id: int)
    requires JobsOk(s) && RemoveJob(s, socket, id).Some?
    ensures var (t, removed) := RemoveJob(s, socket, id).value;
            JobsOk(t) && Ids(t.queue) == if removed == -1 then Ids(s.queue) else Ids(s.queue) - {removed}
  {
    match Locate(s, id)
    case Nowhere =>
    case InQueue(k) =>
      if !(k == 0 || s.queue[k].state.Running?) { RemoveQueuedAtOk(s, socket, k); }
    case InFinished(k) => RemoveFinishedAtOk(s, socket, k);
  }

  /** `b` is `a` without some of its elements. */
  ghost predicate Subsequence(a: seq<Job>, b: seq<Job>) {
    && (forall i :: 0 <= i < |b| ==> b[i] in a)
    && (Distinct(a) ==> Distinct(b))
  }

  lemma SubsequenceTransitive(a: seq<Job>, b: seq<Job>, c: seq<Job>)
    requires Subsequence(a, b) && Subsequence(b, c)
    ensures Subsequence(a, c)
  {
  }

  lemma {:induction false} FinishedShrinks(s: Jobs, id: int, i: nat)
    requires CheckNotifyFrom(s, id, i).Some?
    ensures Subsequence(s.finished, CheckNotifyFrom(s, id, i).value.finished)
    decreases |s.waiters| - i
  {
    if i >= |s.waiters| {
    } else {
      if s.waiters[i].jobid != id || !IsDone(GetJob(s, id).value.state) {
        FinishedShrinks(s, id, i + 1);
      } else {
        var t := AnswerWaiter(s, s.waiters[i], GetJob(s, id).value).value;
        assert Subsequence(s.finished, t.finished) by {
          var f := Find(s.finished, id);
          if f >= 0 && t.finished != s.finished {
            RemoveAtElements(s.finished, f);
          }
        }
        FinishedShrinks(t, id, i);
        SubsequenceTransitive(s.finished, t.finished, CheckNotifyFrom(t, id, i).value.finished);
      }
    }
  }

  lemma ShrunkOk(s: Jobs, t: Jobs)
    requires ListsOk(s) && t.queue == s.queue && t.nextId == s.nextId && Subsequence(s.finished, t.finished)
    ensures ListsOk(t)
  {
  }
}
