/** What every operation of jobs.c keeps true of the two job lists and of the slot counter. */
module JobInvariant {
  import opened JobTypes
  import opened JobSpec

  function Ids(q: seq<Job>): set<int> { set i | 0 <= i < |q| :: q[i].id }

  ghost predicate Distinct(q: seq<Job>) { forall i, j :: 0 <= i < j < |q| ==> q[i].id != q[j].id }

  /** The slots taken by the running jobs. */
  function RunSlots(q: seq<Job>): nat {
    if q == [] then 0
    else RunSlots(q[..|q| - 1]) + if q[|q| - 1].state.Running? then q[|q| - 1].numSlots else 0
  }

  ghost predicate LiveJob(j: Job, nextId: int) {
    && 0 <= j.id < nextId
    && !IsDone(j.state)
    && forall i :: 0 <= i < |j.dependOn| ==> j.dependOn[i] < j.id
  }

  ghost predicate ListsOk(s: Jobs) {
    && (forall i :: 0 <= i < |s.queue| ==> LiveJob(s.queue[i], s.nextId))
    && (forall i :: 0 <= i < |s.finished| ==> 0 <= s.finished[i].id < s.nextId && IsDone(s.finished[i].state))
    && Distinct(s.queue)
    && Distinct(s.finished)
    && Ids(s.queue) !! Ids(s.finished)
  }

  ghost predicate JobsOk(s: Jobs) {
    && ListsOk(s)
    && s.maxSlots >= 1
    && s.nextId >= 0
    && 0 <= s.lastFinishedId && (s.lastFinishedId == 0 || s.lastFinishedId < s.nextId)
    && s.busy == RunSlots(s.queue)
  }

  /** The two lists hold the same jobs, apart from device ids, notification lists and accumulated errors. */
  ghost predicate SameJob(a: Job, b: Job) {
    b == a.(gpuIds := b.gpuIds, notifyTo := b.notifyTo, dependencyErrorlevel := b.dependencyErrorlevel)
  }

  ghost predicate SameJobs(a: seq<Job>, b: seq<Job>) {
    |a| == |b| && forall i :: 0 <= i < |a| ==> SameJob(a[i], b[i])
  }

  // ---- sums and identifiers ----

  lemma {:induction false} RunSlotsSame(a: seq<Job>, b: seq<Job>)
    requires |a| == |b|
    requires forall i :: 0 <= i < |a| ==> a[i].state == b[i].state && a[i].numSlots == b[i].numSlots
    ensures RunSlots(a) == RunSlots(b)
  {
    if a == [] {
    } else {
      RunSlotsSame(a[..|a| - 1], b[..|b| - 1]);
    }
  }

  lemma {:induction false} RunSlotsConcat(a: seq<Job>, b: seq<Job>)
    ensures RunSlots(a + b) == RunSlots(a) + RunSlots(b)
  {
    if b == [] {
      assert a + b == a;
    } else {
      assert (a + b)[..|a + b| - 1] == a + b[..|b| - 1];
      RunSlotsConcat(a, b[..|b| - 1]);
    }
  }

  lemma RunSlotsSplit(q: seq<Job>, k: nat)
    requires k < |q|
    ensures RunSlots(q) == RunSlots(q[..k]) + (if q[k].state.Running? then q[k].numSlots else 0) + RunSlots(q[k + 1..])
  {
    assert q == q[..k] + ([q[k]] + q[k + 1..]);
    RunSlotsConcat(q[..k], [q[k]] + q[k + 1..]);
    RunSlotsConcat([q[k]], q[k + 1..]);
    assert RunSlots([q[k]]) == if q[k].state.Running? then q[k].numSlots else 0 by {
      assert [q[k]][..0] == [];
    }
  }

  lemma RunSlotsUpdate(q: seq<Job>, k: nat, j: Job)
    requires k < |q|
    ensures RunSlots(q[k := j]) + (if q[k].state.Running? then q[k].numSlots else 0)
         == RunSlots(q) + (if j.state.Running? then j.numSlots else 0)
  {
    var q' := q[k := j];
    RunSlotsSplit(q, k);
    RunSlotsSplit(q', k);
    assert q'[..k] == q[..k] && q'[k + 1..] == q[k + 1..];
  }

  lemma RunSlotsRemove(q: seq<Job>, k: nat)
    requires k < |q|
    ensures RunSlots(RemoveAt(q, k)) + (if q[k].state.Running? then q[k].numSlots else 0) == RunSlots(q)
  {
    RunSlotsSplit(q, k);
    RunSlotsConcat(q[..k], q[k + 1..]);
  }

  lemma IdsRemove(q: seq<Job>, k: nat)
    requires k < |q| && Distinct(q)
    ensures Distinct(RemoveAt(q, k))
    ensures Ids(RemoveAt(q, k)) == Ids(q) - {q[k].id}
  {
    var r := RemoveAt(q, k);
    RemoveAtElements(q, k);
    forall x | x in Ids(q) - {q[k].id} ensures x in Ids(r) {
      var i :| 0 <= i < |q| && q[i].id == x;
      assert i != k;
      assert r[if i < k then i else i - 1] == q[i];
    }
  }

  lemma IdsSame(a: seq<Job>, b: seq<Job>)
    requires |a| == |b| && forall i :: 0 <= i < |a| ==> a[i].id == b[i].id
    ensures Ids(a) == Ids(b)
    ensures Distinct(a) ==> Distinct(b)
  {
    forall x ensures x in Ids(a) <==> x in Ids(b) {
      if x in Ids(a) { var i :| 0 <= i < |a| && a[i].id == x; assert b[i].id == x; }
      if x in Ids(b) { var i :| 0 <= i < |b| && b[i].id == x; assert a[i].id == x; }
    }
  }

  lemma IdsAppend(q: seq<Job>, j: Job)
    ensures Ids(q + [j]) == Ids(q) + {j.id}
    ensures Distinct(q) && j.id !in Ids(q) ==> Distinct(q + [j])
  {
    var r := q + [j];
    assert r[|q|] == j;
    forall x | x in Ids(q) ensures x in Ids(r) {
      var i :| 0 <= i < |q| && q[i].id == x;
      assert r[i].id == x;
    }
  }

  /** With distinct ids, a job is found where it is. */
  lemma FindAt(q: seq<Job>, k: nat)
    requires k < |q| && Distinct(q)
    ensures Find(q, q[k].id) == k
  {
  }

  // ---- notify_errorlevel and the dependency loop only touch what SameJob ignores ----

  lemma {:induction false} NotifyAllSame(s: Jobs, ids: seq<int>, e: int)
    ensures SameJobs(s.queue, NotifyAll(s, ids, e).queue)
    ensures SameJobs(s.finished, NotifyAll(s, ids, e).finished)
    ensures forall i :: 0 <= i < |s.queue| ==>
      NotifyAll(s, ids, e).queue[i] ==
      s.queue[i].(dependencyErrorlevel := NotifyAll(s, ids, e).queue[i].dependencyErrorlevel)
  {
    if ids == [] {
    } else {
      NotifyAllSame(s, ids[..|ids| - 1], e);
    }
  }

  /** `b` is `a` with longer notification lists. */
  ghost predicate OnlyNotified(a: seq<Job>, b: seq<Job>) {
    |a| == |b| && forall i :: 0 <= i < |a| ==> b[i] == a[i].(notifyTo := b[i].notifyTo)
  }

  lemma AddDependencySame(s: Jobs, me: Job, d: int)
    requires AddDependency(s, me, d).Some?
    requires forall i :: 0 <= i < |me.dependOn| ==> me.dependOn[i] < me.id
    requires me.id >= 0
    requires forall i :: 0 <= i < |s.queue| ==> s.queue[i].id < me.id
    requires forall i :: 0 <= i < |s.finished| ==> s.finished[i].id < me.id
    ensures var (s', me') := AddDependency(s, me, d).value;
            && s' == s.(queue := s'.queue)
            && OnlyNotified(s.queue, s'.queue)
            && me' == me.(dependOn := me'.dependOn, dependencyErrorlevel := me'.dependencyErrorlevel)
            && forall i :: 0 <= i < |me'.dependOn| ==> me'.dependOn[i] < me.id
  {
  }

  lemma {:induction false} AddDependenciesSame(s: Jobs, me: Job, deps: seq<int>)
    requires AddDependencies(s, me, deps).Some?
    requires forall i :: 0 <= i < |me.dependOn| ==> me.dependOn[i] < me.id
    requires me.id >= 0
    requires forall i :: 0 <= i < |s.queue| ==> s.queue[i].id < me.id
    requires forall i :: 0 <= i < |s.finished| ==> s.finished[i].id < me.id
    ensures var (s', me') := AddDependencies(s, me, deps).value;
            && s' == s.(queue := s'.queue)
            && OnlyNotified(s.queue, s'.queue)
            && SameJobs(s.queue, s'.queue)
            && me' == me.(dependOn := me'.dependOn, dependencyErrorlevel := me'.dependencyErrorlevel)
            && forall i :: 0 <= i < |me'.dependOn| ==> me'.dependOn[i] < me.id
  {
    if deps == [] {
    } else {
      AddDependenciesSame(s, me, deps[..|deps| - 1]);
      var (t, me') := AddDependencies(s, me, deps[..|deps| - 1]).value;
      AddDependencySame(t, me', deps[|deps| - 1]);
    }
  }

  /** `b` is `a` with other device ids in the jobs that wait to run. */
  ghost predicate OnlyDevices(a: seq<Job>, b: seq<Job>) {
    |a| == |b| && forall m :: 0 <= m < |a| ==>
      b[m] == a[m].(gpuIds := b[m].gpuIds) && (!IsRunnable(a[m]) ==> b[m] == a[m])
  }

  lemma OnlyDevicesTransitive(a: seq<Job>, b: seq<Job>, c: seq<Job>)
    requires OnlyDevices(a, b) && OnlyDevices(b, c)
    ensures OnlyDevices(a, c)
  {
  }

  lemma TentativeDevices(s: Jobs, i: nat, query: GpuQuery)
    requires i < |s.queue| && IsRunnable(s.queue[i]) && Tentative(s, s.queue[i], i, query).Some?
    ensures OnlyDevices(s.queue, s.queue[i := Tentative(s, s.queue[i], i, query).value])
  {
  }

  lemma {:induction false} ScanOnlyDevices(s: Jobs, i: nat, query: GpuQuery)
    requires i <= |s.queue|
    ensures OnlyDevices(s.queue, Scan(s, i, query).0.queue)
    decreases |s.queue| - i
  {
    if i == |s.queue| {
    } else if !IsRunnable(s.queue[i]) || Tentative(s, s.queue[i], i, query).None? {
      ScanOnlyDevices(s, i + 1, query);
    } else {
      TentativeDevices(s, i, query);
      var s' := s.(queue := s.queue[i := Tentative(s, s.queue[i], i, query).value]);
      ScanOnlyDevices(s', i + 1, query);
      OnlyDevicesTransitive(s.queue, s'.queue, Scan(s', i + 1, query).0.queue);
    }
  }

  /** The job the scan stops at waits and fits. */
  lemma {:induction false} ScanStops(s: Jobs, i: nat, query: GpuQuery)
    requires i <= |s.queue| && Scan(s, i, query).1 >= 0
    ensures var k := Scan(s, i, query).1;
            i <= k && IsRunnable(s.queue[k]) && s.queue[k].numSlots <= s.maxSlots - s.busy
    decreases |s.queue| - i
  {
    if i == |s.queue| {
    } else if !IsRunnable(s.queue[i]) || Tentative(s, s.queue[i], i, query).None? {
      ScanStops(s, i + 1, query);
    } else {
      var j := Tentative(s, s.queue[i], i, query).value;
      var s' := s.(queue := s.queue[i := j]);
      if Blocked(s', j) || j.numSlots > s.maxSlots - s.busy { ScanStops(s', i + 1, query); }
    }
  }

  lemma ScanSame(s: Jobs, i: nat, query: GpuQuery)
    requires i <= |s.queue|
    ensures SameJobs(s.queue, Scan(s, i, query).0.queue)
    ensures OnlyDevices(s.queue, Scan(s, i, query).0.queue)
    ensures Scan(s, i, query).1 >= 0 ==>
      var k := Scan(s, i, query).1;
      i <= k && IsRunnable(s.queue[k]) && s.queue[k].numSlots <= s.maxSlots - s.busy
  {
    ScanOnlyDevices(s, i, query);
    if Scan(s, i, query).1 >= 0 { ScanStops(s, i, query); }
  }

  // ---- the invariant under list changes ----

  lemma SameJobsOk(s: Jobs, t: Jobs)
    requires ListsOk(s) && SameJobs(s.queue, t.queue) && SameJobs(s.finished, t.finished) && t.nextId == s.nextId
    ensures ListsOk(t) && Ids(t.queue) == Ids(s.queue) && Ids(t.finished) == Ids(s.finished)
    ensures RunSlots(t.queue) == RunSlots(s.queue)
  {
    IdsSame(s.queue, t.queue);
    IdsSame(s.finished, t.finished);
    RunSlotsSame(s.queue, t.queue);
    forall i | 0 <= i < |t.queue| ensures LiveJob(t.queue[i], t.nextId) {
      assert SameJob(s.queue[i], t.queue[i]);
      assert LiveJob(s.queue[i], s.nextId);
    }
    forall i | 0 <= i < |t.finished| ensures 0 <= t.finished[i].id < t.nextId && IsDone(t.finished[i].state) {
      assert SameJob(s.finished[i], t.finished[i]);
    }
  }

  lemma RemoveQueuedOk(s: Jobs, k: nat)
    requires ListsOk(s) && k < |s.queue|
    ensures ListsOk(s.(queue := RemoveAt(s.queue, k)))
    ensures Ids(RemoveAt(s.queue, k)) == Ids(s.queue) - {s.queue[k].id}
  {
    IdsRemove(s.queue, k);
    RemoveAtElements(s.queue, k);
  }

  lemma RemoveFinishedOk(s: Jobs, f: nat)
    requires ListsOk(s) && f < |s.finished|
    ensures ListsOk(s.(finished := RemoveAt(s.finished, f)))
    ensures Ids(RemoveAt(s.finished, f)) == Ids(s.finished) - {s.finished[f].id}
  {
    IdsRemove(s.finished, f);
    RemoveAtElements(s.finished, f);
  }

  lemma NewFinishedOk(f: seq<Job>, j: Job, max: nat, nextId: int)
    requires forall i :: 0 <= i < |f| ==> 0 <= f[i].id < nextId && IsDone(f[i].state)
    requires Distinct(f) && j.id !in Ids(f) && 0 <= j.id < nextId && IsDone(j.state)
    requires NewFinished(f, j, max).Some?
    ensures var g := NewFinished(f, j, max).value;
            && (forall i :: 0 <= i < |g| ==> 0 <= g[i].id < nextId && IsDone(g[i].state))
            && Distinct(g) && j.id in Ids(g) && Ids(g) <= Ids(f) + {j.id}
            && |g| > 0 && g[|g| - 1] == j
  {
    var g := NewFinished(f, j, max).value;
    if f == [] {
      assert g[0] == j;
    } else if |f| < max {
      IdsAppend(f, j);
    } else {
      assert f[1..] == RemoveAt(f, 0);
      IdsRemove(f, 0);
      IdsAppend(f[1..], j);
    }
  }
}
