/** `DepsOk` under the operations: a job enters, a job leaves, the others stay. */
module Failures {
  import opened JobTypes
  import opened JobSpec
  import opened JobInvariant
  import opened Dependencies
  import Ops = JobOperations

  // ---- a job enters ----

  /** A dependency is older than its owner; it is known only if the job is there, and only a known one is queued. */
  predicate Plausible(s: Jobs, d: Dep) {
    && d.id < s.nextId
    && (Known(d) ==> Find(s.queue, d.id) >= 0 || Find(s.finished, d.id) >= 0)
    && (Find(s.queue, d.id) >= 0 ==> Known(d))
  }

  lemma {:induction false} RecordedBounds(s: Jobs, deps: seq<int>)
    requires ListsOk(s) && s.lastFinishedId >= 0 && s.nextId >= 0
    ensures forall i :: 0 <= i < |Recorded(s, deps)| ==> Plausible(s, Recorded(s, deps)[i])
  {
    if deps == [] {
    } else {
      LastDepMeans(s);
      RecordedBounds(s, deps[..|deps| - 1]);
    }
  }

  lemma OldJobDeps(s: Jobs, h: History, t: Jobs, h': History, j: Job, j': Job)
    requires JobDeps(s, h, j) && j' == j.(notifyTo := j'.notifyTo)
    requires s.nextId in h'.deps && j.id < s.nextId && s.nextId !in h.deps
    requires h' == h.(deps := h.deps[s.nextId := h'.deps[s.nextId]])
    requires Ids(t.queue) == Ids(s.queue) + {s.nextId}
    ensures JobDeps(t, h', j')
  {
  }

  /** The queue after s_newjob: the old jobs, some of which notify one job more, and the new one. */
  lemma NewJobParts(s: Jobs, h: History, r: Request) returns (q: seq<Job>, me: Job)
    requires JobsOk(s) && DepsOk(s, h) && NewJob(s, r).Some?
    ensures NewJob(s, r).value == s.(queue := q + [me], nextId := s.nextId + 1)
    ensures NotifyGrown(s.queue, q, s.nextId, me.dependOn)
    ensures me.id == s.nextId && me.notifyTo == [] && me.dependOn == DepIds(Recorded(s, r.dependOn))
    ensures me.dependencyErrorlevel >= 0 && (me.dependencyErrorlevel == 0 <==> AllClear(h, Recorded(s, r.dependOn)))
    ensures forall i :: 0 <= i < |me.dependOn| ==> me.dependOn[i] < me.id
  {
    var j := Enqueued(s, r);
    forall k | 0 <= k < |s.queue| ensures s.queue[k].id < j.id && !Contains(s.queue[k].notifyTo, j.id) {
      assert LiveJob(s.queue[k], s.nextId);
    }
    forall k | 0 <= k < |s.finished| ensures s.finished[k].id < j.id {
    }
    AddEffect(s, j, r.dependOn);
    AddError0(s, h, j, r.dependOn);
    AddDependenciesSame(s, j, r.dependOn);
    q := AddDependencies(s, j, r.dependOn).value.0.queue;
    me := AddDependencies(s, j, r.dependOn).value.1;
  }

  lemma OldJobs(s: Jobs, h: History, q: seq<Job>, me: Job, t: Jobs, h': History)
    requires ListsOk(s) && DepsOk(s, h) && NotifyGrown(s.queue, q, s.nextId, me.dependOn)
    requires t.nextId == s.nextId + 1 && Ids(t.queue) == Ids(s.queue) + {s.nextId}
    requires s.nextId in h'.deps && h' == h.(deps := h.deps[s.nextId := h'.deps[s.nextId]])
    ensures forall k :: 0 <= k < |q| ==>
      JobDeps(t, h', q[k]) && forall id :: Contains(q[k].notifyTo, id) ==> id < t.nextId
  {
    forall k | 0 <= k < |q| ensures JobDeps(t, h', q[k]) && forall id :: Contains(q[k].notifyTo, id) ==> id < t.nextId {
      assert LiveJob(s.queue[k], s.nextId) && JobDeps(s, h, s.queue[k]);
      assert NotifiesAlso(s.queue[k], q[k], s.nextId, Contains(me.dependOn, s.queue[k].id));
      OldJobDeps(s, h, t, h', s.queue[k], q[k]);
    }
  }

  lemma Assemble(s: Jobs, h: History, q: seq<Job>, me: Job, t: Jobs, h': History)
    requires DepsOk(s, h) && t == s.(queue := q + [me], nextId := s.nextId + 1)
    requires s.nextId in h'.deps && h' == h.(deps := h.deps[s.nextId := h'.deps[s.nextId]])
    requires s.nextId >= 0 && Ids(t.queue) == Ids(s.queue) + {s.nextId}
    requires forall k :: 0 <= k < |q| ==>
      JobDeps(t, h', q[k]) && forall id :: Contains(q[k].notifyTo, id) ==> id < t.nextId
    requires JobDeps(t, h', me) && me.notifyTo == [] && Linked(t.queue)
    ensures DepsOk(t, h')
  {
    forall k | 0 <= k < |t.queue| ensures JobDeps(t, h', t.queue[k]) {
      assert t.queue[k] == if k < |q| then q[k] else me;
    }
    forall k, id | 0 <= k < |t.queue| && Contains(t.queue[k].notifyTo, id) ensures id < t.nextId {
      assert t.queue[k] == if k < |q| then q[k] else me;
    }
  }

  /** s_newjob keeps the bookkeeping. */
  lemma NewJobDeps(s: Jobs, h: History, r: Request)
    requires JobsOk(s) && DepsOk(s, h) && NewJob(s, r).Some?
    ensures DepsOk(NewJob(s, r).value, h.(deps := h.deps[s.nextId := Recorded(s, r.dependOn)]))
  {
    var t := NewJob(s, r).value;
    var h' := h.(deps := h.deps[s.nextId := Recorded(s, r.dependOn)]);
    var q, me := NewJobParts(s, h, r);
    RecordedBounds(s, r.dependOn);
    Ops.NewJobOk(s, r);
    NewcomerDeps(s, h, t, h', me);
    LinkedGrown(s, q, me);
    OldJobs(s, h, q, me, t, h');
    Assemble(s, h, q, me, t, h');
  }

  lemma NewcomerDeps(s: Jobs, h: History, t: Jobs, h': History, j: Job)
    requires DepsOk(s, h) && j.id == s.nextId && Ids(t.queue) == Ids(s.queue) + {s.nextId}
    requires h'.ended == h.ended && s.nextId in h'.deps
    requires forall i :: 0 <= i < |h'.deps[s.nextId]| ==> Plausible(s, h'.deps[s.nextId][i])
    requires j.dependOn == DepIds(h'.deps[s.nextId]) && j.dependencyErrorlevel >= 0
    requires j.dependencyErrorlevel == 0 <==> AllClear(h, h'.deps[s.nextId])
    ensures JobDeps(t, h', j)
  {
    assert AllClear(h', h'.deps[s.nextId]) <==> AllClear(h, h'.deps[s.nextId]) by {
      assert forall d :: Clear(h', d) == Clear(h, d);
    }
    forall i | 0 <= i < |h'.deps[s.nextId]|
      ensures var d := h'.deps[s.nextId][i];
              && d.id < j.id
              && (Known(d) ==> d.id in Ids(t.queue) || d.id in h'.ended)
              && (!Known(d) ==> d.id !in Ids(t.queue))
    {
      assert Plausible(s, h'.deps[s.nextId][i]);
    }
  }

  lemma LinkedGrown(s: Jobs, q: seq<Job>, j: Job)
    requires ListsOk(s) && Linked(s.queue) && NotifyGrown(s.queue, q, s.nextId, j.dependOn)
    requires j.id == s.nextId && j.notifyTo == [] && forall i :: 0 <= i < |j.dependOn| ==> j.dependOn[i] < j.id
    ensures Linked(q + [j])
  {
    var n := |q|;
    var t := q + [j];
    forall a, b | 0 <= a < |t| && 0 <= b < |t|
      ensures Contains(t[a].notifyTo, t[b].id) <==> Contains(t[b].dependOn, t[a].id)
    {
      if a < n { assert NotifiesAlso(s.queue[a], q[a], s.nextId, Contains(j.dependOn, s.queue[a].id)); }
      if b < n {
        assert NotifiesAlso(s.queue[b], q[b], s.nextId, Contains(j.dependOn, s.queue[b].id));
        assert LiveJob(s.queue[b], s.nextId);
      }
    }
  }

  // ---- a job leaves ----

  /** `u` is the queue of `s` after the job at position `k` told its dependents its errorlevel. */
  ghost predicate Told(s: seq<Job>, u: seq<Job>, k: nat, e: int)
    requires k < |s|
  {
    && |u| == |s|
    && forall i :: 0 <= i < |s| && i != k ==>
         && u[i] == s[i].(dependencyErrorlevel := u[i].dependencyErrorlevel)
         && u[i].dependencyErrorlevel >= s[i].dependencyErrorlevel
         && (u[i].dependencyErrorlevel > s[i].dependencyErrorlevel <==> e != 0 && Contains(s[k].notifyTo, s[i].id))
  }

  lemma DependsIff(deps: seq<Dep>, id: int)
    ensures Contains(DepIds(deps), id) <==> exists i :: 0 <= i < |deps| && deps[i].id == id
  {
    if Contains(DepIds(deps), id) {
      var i :| 0 <= i < |DepIds(deps)| && DepIds(deps)[i] == id;
      assert deps[i].id == id;
    }
    if i :| 0 <= i < |deps| && deps[i].id == id {
      assert DepIds(deps)[i] == id;
    }
  }

  /** One job more has ended with errorlevel `o.errorlevel`. */
  lemma ClearAfter(h: History, x: int, o: Outcome, deps: seq<Dep>)
    requires x !in h.ended
    requires forall i :: 0 <= i < |deps| && deps[i].id == x ==> Known(deps[i])
    ensures AllClear(h.(ended := h.ended[x := o]), deps) <==>
              AllClear(h, deps) && (Contains(DepIds(deps), x) ==> o.errorlevel == 0)
  {
    var h' := h.(ended := h.ended[x := o]);
    DependsIff(deps, x);
    forall i | 0 <= i < |deps|
      ensures Clear(h', deps[i]) <==> Clear(h, deps[i]) && (deps[i].id == x ==> o.errorlevel == 0)
    {
    }
    if AllClear(h', deps) && Contains(DepIds(deps), x) {
      var i :| 0 <= i < |deps| && deps[i].id == x;
      assert Clear(h', deps[i]);
    }
    if AllClear(h', deps) {
      forall i | 0 <= i < |deps| ensures Clear(h, deps[i]) { assert Clear(h', deps[i]); }
    }
  }

  lemma SurvivorDeps(s: Jobs, h: History, k: nat, i: nat, j': Job, t: Jobs, o: Outcome)
    requires ListsOk(s) && DepsOk(s, h) && k < |s.queue| && i < |s.queue| && i != k
    requires j' == s.queue[i].(dependencyErrorlevel := j'.dependencyErrorlevel)
    requires j'.dependencyErrorlevel >= s.queue[i].dependencyErrorlevel
    requires j'.dependencyErrorlevel > s.queue[i].dependencyErrorlevel <==>
               o.errorlevel != 0 && Contains(s.queue[k].notifyTo, s.queue[i].id)
    requires Ids(t.queue) == Ids(s.queue) - {s.queue[k].id}
    ensures JobDeps(t, h.(ended := h.ended[s.queue[k].id := o]), j')
  {
    var j := s.queue[i];
    var x := s.queue[k].id;
    assert x in Ids(s.queue);
    assert JobDeps(s, h, j);
    var deps := h.deps[j.id];
    ClearAfter(h, x, o, deps);
    assert Contains(s.queue[k].notifyTo, j.id) <==> Contains(j.dependOn, x);
  }

  lemma LeaveDeps(s: Jobs, h: History, k: nat, u: seq<Job>, t: Jobs, o: Outcome)
    requires ListsOk(s) && DepsOk(s, h) && k < |s.queue| && Told(s.queue, u, k, o.errorlevel)
    requires t.queue == RemoveAt(u, k) && t.nextId == s.nextId
    requires forall f :: 0 <= f < |t.finished| ==>
               || (t.finished[f].id == s.queue[k].id && t.finished[f].errorlevel == o.errorlevel)
               || Stored(s.finished, t.finished[f])
    ensures DepsOk(t, h.(ended := h.ended[s.queue[k].id := o]))
  {
    var h' := h.(ended := h.ended[s.queue[k].id := o]);
    RemoveAtElements(u, k);
    RemoveAtElements(s.queue, k);
    IdsRemove(s.queue, k);
    IdsSame(RemoveAt(s.queue, k), t.queue);
    assert JobDeps(s, h, s.queue[k]) && LiveJob(s.queue[k], s.nextId);
    forall m | 0 <= m < |t.queue| ensures JobDeps(t, h', t.queue[m]) {
      var i := if m < k then m else m + 1;
      SurvivorDeps(s, h, k, i, t.queue[m], t, o);
    }
    forall a, b | 0 <= a < |t.queue| && 0 <= b < |t.queue|
      ensures Contains(t.queue[a].notifyTo, t.queue[b].id) <==> Contains(t.queue[b].dependOn, t.queue[a].id)
    {
      var a' := if a < k then a else a + 1;
      var b' := if b < k then b else b + 1;
      assert Contains(s.queue[a'].notifyTo, s.queue[b'].id) <==> Contains(s.queue[b'].dependOn, s.queue[a'].id);
    }
    forall f | 0 <= f < |t.finished|
      ensures t.finished[f].id in h'.ended && h'.ended[t.finished[f].id].errorlevel == t.finished[f].errorlevel
    {
      if Stored(s.finished, t.finished[f]) {
        var g :| 0 <= g < |s.finished| && s.finished[g].id == t.finished[f].id
              && s.finished[g].errorlevel == t.finished[f].errorlevel;
        assert s.finished[g].id in h.ended && s.queue[k].id in Ids(s.queue);
      }
    }
  }

  /** The list holds a job with this id and errorlevel. */
  ghost predicate Stored(f: seq<Job>, j: Job) {
    exists g :: 0 <= g < |f| && f[g].id == j.id && f[g].errorlevel == j.errorlevel
  }

  // ---- the jobs stay ----

  lemma StayDeps(s: Jobs, h: History, t: Jobs)
    requires DepsOk(s, h) && t.nextId == s.nextId && Ids(t.queue) == Ids(s.queue)
    requires forall i :: 0 <= i < |t.queue| ==> SameLinks(s.queue, t.queue[i])
    requires forall f :: 0 <= f < |t.finished| ==> Stored(s.finished, t.finished[f])
    ensures DepsOk(t, h)
  {
    forall i | 0 <= i < |t.queue| ensures JobDeps(t, h, t.queue[i]) {
      assert SameLinks(s.queue, t.queue[i]);
      var m :| 0 <= m < |s.queue| && LinksOf(s.queue[m], t.queue[i]);
      assert JobDeps(s, h, s.queue[m]);
    }
    forall a, b | 0 <= a < |t.queue| && 0 <= b < |t.queue|
      ensures Contains(t.queue[a].notifyTo, t.queue[b].id) <==> Contains(t.queue[b].dependOn, t.queue[a].id)
    {
      assert SameLinks(s.queue, t.queue[a]) && SameLinks(s.queue, t.queue[b]);
      var a' :| 0 <= a' < |s.queue| && LinksOf(s.queue[a'], t.queue[a]);
      var b' :| 0 <= b' < |s.queue| && LinksOf(s.queue[b'], t.queue[b]);
    }
    forall k, id | 0 <= k < |t.queue| && Contains(t.queue[k].notifyTo, id) ensures id < t.nextId {
      assert SameLinks(s.queue, t.queue[k]);
    }
  }

  ghost predicate LinksOf(a: Job, b: Job) {
    && a.id == b.id && a.dependOn == b.dependOn && a.notifyTo == b.notifyTo
    && a.dependencyErrorlevel == b.dependencyErrorlevel
  }

  ghost predicate SameLinks(q: seq<Job>, j: Job) { exists m :: 0 <= m < |q| && LinksOf(q[m], j) }
}
