/** How the failure of a job reaches the jobs that depend on it: the bookkeeping of
    notify_errorlevel, seen through what is known about every dependency. */
module Dependencies {
  import opened JobTypes
  import opened JobSpec
  import opened JobInvariant

  /** How a job left the run queue; `quit` when its client did not report it with ENDJOB. */
  datatype Outcome = Outcome(errorlevel: int, skipped: bool, quit: bool)

  /** A dependency as recorded when its owner was queued: on a job, `known` if one with that id was then in
      the run queue or in the finished list; or, for -d when no job of the queue can be meant, on what was
      then the last result. The id is in that case the newest that was stored, or -1. */
  datatype Dep = Dep(id: int, known: bool) | Last(id: int, errorlevel: int)

  datatype History = History(ended: map<int, Outcome>, deps: map<int, seq<Dep>>)

  predicate Contains(ids: seq<int>, id: int) { exists i :: 0 <= i < |ids| && ids[i] == id }

  function DepIds(deps: seq<Dep>): seq<int> { seq(|deps|, i requires 0 <= i < |deps| => deps[i].id) }

  /** No other job of the list has a greater id. */
  ghost predicate Newest(q: seq<Job>, k: nat)
    requires k < |q|
  {
    forall m :: 0 <= m < |q| ==> q[m].id <= q[k].id
  }

  /** What -d stands for: the newest job of the queue, unless a job that is newer still ended last. In that
      case the errorlevel of the newest stored job counts if that job is newer still, else that of the last end. */
  function LastDep(s: Jobs): Dep {
    if s.queue != [] && s.lastFinishedId <= MaxId(s.queue) then Dep(MaxId(s.queue), true)
    else
      var f := Find(s.finished, MaxId(s.finished));
      Last(MaxId(s.finished),
           if f >= 0 && s.lastFinishedId < s.finished[f].id then s.finished[f].errorlevel else s.lastErrorlevel)
  }

  function DepOf(s: Jobs, d: int): Dep {
    if d == -1 then LastDep(s) else Dep(d, Find(s.queue, d) >= 0 || Find(s.finished, d) >= 0)
  }

  /** The dependencies of a request that s_newjob keeps, as it finds them. */
  function Recorded(s: Jobs, deps: seq<int>): seq<Dep> {
    if deps == [] then []
    else
      var d := deps[|deps| - 1];
      Recorded(s, deps[..|deps| - 1]) + if d >= s.nextId then [] else [DepOf(s, d)]
  }

  /** The dependency is on a job that was there. */
  predicate Known(d: Dep) { d.Dep? && d.known }

  /** Nothing speaks against this dependency so far. */
  predicate Clear(h: History, d: Dep) {
    match d
    case Dep(id, known) => known && (id in h.ended ==> h.ended[id].errorlevel == 0)
    case Last(_, errorlevel) => errorlevel == 0
  }

  predicate AllClear(h: History, deps: seq<Dep>) { forall i :: 0 <= i < |deps| ==> Clear(h, deps[i]) }

  ghost predicate JobDeps(s: Jobs, h: History, j: Job) {
    && j.id in h.deps
    && j.dependOn == DepIds(h.deps[j.id])
    && j.dependencyErrorlevel >= 0
    && (j.dependencyErrorlevel == 0 <==> AllClear(h, h.deps[j.id]))
    && forall i :: 0 <= i < |h.deps[j.id]| ==>
         var d := h.deps[j.id][i];
         && d.id < j.id
         && (Known(d) ==> d.id in Ids(s.queue) || d.id in h.ended)
         && (!Known(d) ==> d.id !in Ids(s.queue))
  }

  /** A queued job tells its end to exactly the queued jobs that depend on it. */
  ghost predicate Linked(q: seq<Job>) {
    forall a, b :: 0 <= a < |q| && 0 <= b < |q| ==>
      (Contains(q[a].notifyTo, q[b].id) <==> Contains(q[b].dependOn, q[a].id))
  }

  ghost predicate DepsOk(s: Jobs, h: History) {
    && (forall k :: 0 <= k < |s.queue| ==> JobDeps(s, h, s.queue[k]))
    && Linked(s.queue)
    && (forall k, id :: 0 <= k < |s.queue| && Contains(s.queue[k].notifyTo, id) ==> id < s.nextId)
    && (forall id :: id in h.ended ==> 0 <= id < s.nextId && id !in Ids(s.queue) && id in h.deps)
    && (forall f :: 0 <= f < |s.finished| ==>
          s.finished[f].id in h.ended && h.ended[s.finished[f].id].errorlevel == s.finished[f].errorlevel)
    && (forall id :: id in h.deps ==> 0 <= id < s.nextId)
  }

  // ---- notify_errorlevel ----

  /** Who is named in the list is told, once or more; nobody else is. */
  lemma {:induction false} NotifyEffect(s: Jobs, ids: seq<int>, e: int)
    requires Distinct(s.queue)
    ensures forall k :: 0 <= k < |s.queue| ==>
      var d := NotifyAll(s, ids, e).queue[k].dependencyErrorlevel - s.queue[k].dependencyErrorlevel;
      d >= 0 && (d > 0 <==> e != 0 && Contains(ids, s.queue[k].id))
  {
    if ids == [] {
    } else {
      var n := |ids| - 1;
      NotifyEffect(s, ids[..n], e);
      var u := NotifyAll(s, ids[..n], e);
      NotifyAllSame(s, ids[..n], e);
      IdsSame(s.queue, u.queue);
      forall k | 0 <= k < |s.queue|
        ensures var d := NotifyAll(s, ids, e).queue[k].dependencyErrorlevel - s.queue[k].dependencyErrorlevel;
                d >= 0 && (d > 0 <==> e != 0 && Contains(ids, s.queue[k].id))
      {
        FindAt(u.queue, k);
        ContainsSplit(ids, n, s.queue[k].id);
      }
    }
  }

  lemma ContainsSplit(ids: seq<int>, n: nat, id: int)
    requires n + 1 == |ids|
    ensures Contains(ids, id) <==> Contains(ids[..n], id) || ids[n] == id
  {
    if Contains(ids, id) && ids[n] != id {
      var i :| 0 <= i < |ids| && ids[i] == id;
      assert ids[..n][i] == id;
    }
    if Contains(ids[..n], id) {
      var i :| 0 <= i < n && ids[..n][i] == id;
      assert ids[i] == id;
    }
  }

  lemma ContainsAppend(ids: seq<int>, x: int, id: int)
    ensures Contains(ids + [x], id) <==> Contains(ids, id) || x == id
  {
    ContainsSplit(ids + [x], |ids|, id);
    assert (ids + [x])[..|ids|] == ids;
  }

  // ---- the dependency loop of s_newjob ----

  /** `b` is `a`, where exactly the jobs named in `dependOn` also notify the new job `id`. */
  ghost predicate NotifyGrown(a: seq<Job>, b: seq<Job>, id: int, dependOn: seq<int>) {
    && |a| == |b|
    && forall k :: 0 <= k < |a| ==> NotifiesAlso(a[k], b[k], id, Contains(dependOn, a[k].id))
  }

  ghost predicate NotifiesAlso(a: Job, b: Job, id: int, also: bool) {
    && b == a.(notifyTo := b.notifyTo)
    && (forall x :: x != id ==> (Contains(b.notifyTo, x) <==> Contains(a.notifyTo, x)))
    && (Contains(b.notifyTo, id) <==> also)
  }

  lemma NotifiesMore(a: Job, b: Job, id: int, also: bool)
    requires NotifiesAlso(a, b, id, also)
    ensures NotifiesAlso(a, AddNotify(b, id), id, true)
  {
    forall x { ContainsAppend(b.notifyTo, id, x); }
  }

  lemma NotifyGrownStep(a: seq<Job>, b: seq<Job>, id: int, dependOn: seq<int>, d: int)
    requires Distinct(a) && NotifyGrown(a, b, id, dependOn)
    ensures var k := Find(b, d);
            NotifyGrown(a, if k >= 0 then b[k := AddNotify(b[k], id)] else b, id, dependOn + [d])
  {
    var k := Find(b, d);
    var c := if k >= 0 then b[k := AddNotify(b[k], id)] else b;
    assert forall i :: 0 <= i < |a| ==> b[i].id == a[i].id by {
      forall i | 0 <= i < |a| ensures b[i].id == a[i].id {
        assert NotifiesAlso(a[i], b[i], id, Contains(dependOn, a[i].id));
      }
    }
    forall i | 0 <= i < |a| ensures NotifiesAlso(a[i], c[i], id, Contains(dependOn + [d], a[i].id)) {
      assert NotifiesAlso(a[i], b[i], id, Contains(dependOn, a[i].id));
      ContainsAppend(dependOn, d, a[i].id);
      if i == k {
        NotifiesMore(a[i], b[i], id, Contains(dependOn, a[i].id));
      } else {
        assert a[i].id != d;
      }
    }
  }

  lemma MaxIdSame(a: seq<Job>, b: seq<Job>)
    requires |a| == |b| && forall i :: 0 <= i < |a| ==> a[i].id == b[i].id
    ensures MaxId(a) == MaxId(b)
  {
    if a == [] {
    } else {
      MaxIdSame(a[..|a| - 1], b[..|b| - 1]);
    }
  }

  lemma MaxIdQueued(s: Jobs)
    requires ListsOk(s)
    ensures s.queue == [] <==> MaxId(s.queue) == -1
    ensures s.queue != [] ==> Find(s.queue, MaxId(s.queue)) >= 0 && MaxId(s.queue) < s.nextId
  {
    if s.queue != [] { assert LiveJob(s.queue[0], s.nextId); }
    forall i | 0 <= i < |s.queue| ensures s.queue[i].id < s.nextId { assert LiveJob(s.queue[i], s.nextId); }
  }

  lemma MaxIdStored(s: Jobs)
    requires ListsOk(s)
    ensures MaxId(s.finished) < s.nextId || s.finished == []
    ensures s.finished == [] <==> MaxId(s.finished) == -1
    ensures s.finished != [] ==> Find(s.finished, MaxId(s.finished)) >= 0
    ensures Find(s.queue, MaxId(s.finished)) < 0
  {
    if s.finished != [] {
      assert s.finished[0].id >= 0;
      var f :| 0 <= f < |s.finished| && s.finished[f].id == MaxId(s.finished);
      assert s.finished[f].id in Ids(s.finished) && s.finished[f].id !in Ids(s.queue);
    }
    forall k | 0 <= k < |s.queue| ensures s.queue[k].id != MaxId(s.finished) {
      assert LiveJob(s.queue[k], s.nextId) && s.queue[k].id in Ids(s.queue);
    }
  }

  /** The id that is recorded, and whether the job with that id is to notify. */
  lemma LastDepMeans(s: Jobs)
    requires ListsOk(s) && s.lastFinishedId >= 0
    ensures Known(LastDep(s)) <==> Find(s.queue, LastDep(s).id) >= 0
    ensures Known(LastDep(s)) ==> LastDep(s).id < s.nextId
    ensures !Known(LastDep(s)) ==> LastDep(s).id == -1 || LastDep(s).id < s.nextId
  {
    MaxIdQueued(s);
    MaxIdStored(s);
  }

  /** `v` is the outcome of a turn of the loop on `u` and `m` that recorded `x`. */
  ghost predicate Added(s: Jobs, u: Jobs, m: Job, x: Dep, v: Option<(Jobs, Job)>) {
    var k := Find(u.queue, x.id);
    && v.Some?
    && v.value.1 == m.(dependOn := m.dependOn + [x.id], dependencyErrorlevel := v.value.1.dependencyErrorlevel)
    && v.value.0 == s.(queue := if k >= 0 then u.queue[k := AddNotify(u.queue[k], m.id)] else u.queue)
    && v.value.1.dependencyErrorlevel - m.dependencyErrorlevel ==
         if k >= 0 then 0
         else if x.Last? then Abs(x.errorlevel)
         else if Find(s.finished, x.id) >= 0 then Abs(s.finished[Find(s.finished, x.id)].errorlevel)
         else 1
  }

  /** `u` differs from `s` by earlier turns. */
  ghost predicate Between(s: Jobs, u: Jobs) {
    && u == s.(queue := u.queue) && |u.queue| == |s.queue|
    && forall k :: 0 <= k < |s.queue| ==> u.queue[k].id == s.queue[k].id
  }

  lemma AddOne(s: Jobs, u: Jobs, m: Job, d: int)
    requires ListsOk(s) && s.lastFinishedId >= 0 && m.id == s.nextId && d < m.id && AddDependency(u, m, d).Some?
    requires Between(s, u)
    ensures Added(s, u, m, DepOf(s, d), AddDependency(u, m, d))
  {
    if d == -1 {
      MaxIdQueued(s);
      MaxIdSame(s.queue, u.queue);
      FindQueued(s, u, MaxId(s.queue));
      if LastDep(s).Dep? { AddNewest(s, u, m); } else { AddPast(s, u, m); }
    }
  }

  lemma AddNewest(s: Jobs, u: Jobs, m: Job)
    requires m.id >= 0 && Between(s, u) && Find(u.queue, MaxId(s.queue)) >= 0 && MaxId(u.queue) == MaxId(s.queue) != -1
    requires LastDep(s).Dep?
    ensures Added(s, u, m, LastDep(s), AddDependency(u, m, -1))
  {
  }

  lemma AddPast(s: Jobs, u: Jobs, m: Job)
    requires ListsOk(s) && m.id >= 0 && Between(s, u) && LastDep(s).Last? && AddDependency(u, m, -1).Some?
    requires MaxId(u.queue) == MaxId(s.queue) && s.lastFinishedId >= 0 && (s.queue == [] ==> MaxId(s.queue) == -1)
    ensures Added(s, u, m, LastDep(s), AddDependency(u, m, -1))
  {
    MaxIdStored(s);
    FindQueued(s, u, MaxId(s.finished));
  }

  lemma {:induction false} AddEffect(s: Jobs, me: Job, deps: seq<int>)
    requires AddDependencies(s, me, deps).Some? && ListsOk(s) && s.lastFinishedId >= 0
    requires me.dependOn == [] && me.id == s.nextId
    requires forall k :: 0 <= k < |s.queue| ==> !Contains(s.queue[k].notifyTo, me.id)
    ensures var (s', me') := AddDependencies(s, me, deps).value;
            && me'.dependOn == DepIds(Recorded(s, deps))
            && me'.id == me.id
            && s' == s.(queue := s'.queue)
            && NotifyGrown(s.queue, s'.queue, me.id, me'.dependOn)
  {
    if deps == [] {
      forall k | 0 <= k < |s.queue| ensures NotifiesAlso(s.queue[k], s.queue[k], me.id, Contains([], s.queue[k].id)) {
      }
    } else {
      var n := |deps| - 1;
      AddEffect(s, me, deps[..n]);
      var (u, m) := AddDependencies(s, me, deps[..n]).value;
      RecordedIds(s, deps);
      if deps[n] < me.id {
        GrownIds(s.queue, u.queue, me.id, m.dependOn);
        AddOne(s, u, m, deps[n]);
        NotifyGrownStep(s.queue, u.queue, me.id, m.dependOn, DepOf(s, deps[n]).id);
      }
    }
  }

  lemma GrownIds(a: seq<Job>, b: seq<Job>, id: int, dependOn: seq<int>)
    requires NotifyGrown(a, b, id, dependOn)
    ensures forall k :: 0 <= k < |a| ==> b[k].id == a[k].id
  {
    forall k | 0 <= k < |a| ensures b[k].id == a[k].id {
      assert NotifiesAlso(a[k], b[k], id, Contains(dependOn, a[k].id));
    }
  }

  lemma DepIdsAppend(deps: seq<Dep>, d: Dep)
    ensures DepIds(deps + [d]) == DepIds(deps) + [d.id]
  {
  }

  lemma RecordedIds(s: Jobs, deps: seq<int>)
    requires deps != []
    ensures var n := |deps| - 1;
            DepIds(Recorded(s, deps)) ==
              DepIds(Recorded(s, deps[..n])) + if deps[n] < s.nextId then [DepOf(s, deps[n]).id] else []
  {
    var n := |deps| - 1;
    var r := Recorded(s, deps[..n]);
    if deps[n] < s.nextId {
      DepIdsAppend(r, DepOf(s, deps[n]));
    } else {
      assert r + [] == r;
    }
  }

  /** Every stored job ended with the errorlevel stored, and no queued job has ended. */
  ghost predicate EndsKnown(s: Jobs, h: History) {
    && (forall f :: 0 <= f < |s.finished| ==>
          s.finished[f].id in h.ended && h.ended[s.finished[f].id].errorlevel == s.finished[f].errorlevel)
    && (forall id :: id in h.ended ==> id !in Ids(s.queue))
  }

  /** The error accumulated while queuing is zero exactly when every recorded dependency is
      still queued or ended well. */
  lemma {:induction false} AddError0(s: Jobs, h: History, me: Job, deps: seq<int>)
    requires AddDependencies(s, me, deps).Some? && ListsOk(s) && s.lastFinishedId >= 0 && me.id == s.nextId
    requires me.dependencyErrorlevel == 0 && EndsKnown(s, h)
    ensures var (s', me') := AddDependencies(s, me, deps).value;
            && me'.id == me.id && me'.dependencyErrorlevel >= 0
            && s' == s.(queue := s'.queue) && |s'.queue| == |s.queue|
            && (forall k :: 0 <= k < |s.queue| ==> s'.queue[k].id == s.queue[k].id)
            && (me'.dependencyErrorlevel == 0 <==> AllClear(h, Recorded(s, deps)))
  {
    if deps == [] {
    } else {
      var n := |deps| - 1;
      AddError0(s, h, me, deps[..n]);
      var (u, m) := AddDependencies(s, me, deps[..n]).value;
      var r := Recorded(s, deps[..n]);
      if deps[n] < me.id {
        AddOne(s, u, m, deps[n]);
        FindQueued(s, u, DepOf(s, deps[n]).id);
        ClearStep(s, h, deps[n]);
        AllClearAppend(h, r, DepOf(s, deps[n]));
      } else {
        assert Recorded(s, deps) == r;
      }
    }
  }

  lemma AllClearAppend(h: History, r: seq<Dep>, x: Dep)
    ensures AllClear(h, r + [x]) <==> AllClear(h, r) && Clear(h, x)
  {
    assert (r + [x])[|r|] == x && forall i :: 0 <= i < |r| ==> (r + [x])[i] == r[i];
  }

  lemma FindQueued(s: Jobs, u: Jobs, d: int)
    requires |u.queue| == |s.queue| && forall k :: 0 <= k < |s.queue| ==> u.queue[k].id == s.queue[k].id
    ensures Find(u.queue, d) == Find(s.queue, d)
  {
  }

  lemma ClearStep(s: Jobs, h: History, d: int)
    requires ListsOk(s) && s.lastFinishedId >= 0 && EndsKnown(s, h)
    ensures var x := DepOf(s, d);
            Clear(h, x) <==>
              if Find(s.queue, x.id) >= 0 then true
              else if x.Last? then x.errorlevel == 0
              else Find(s.finished, x.id) >= 0 && s.finished[Find(s.finished, x.id)].errorlevel == 0
  {
    var x := DepOf(s, d);
    LastDepMeans(s);
    if Find(s.queue, x.id) >= 0 { assert x.id in Ids(s.queue); }
  }
}
