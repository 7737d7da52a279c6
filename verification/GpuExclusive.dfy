/** GPU exclusivity: in runs with automatic GPU jobs only, running jobs hold disjoint devices and
    the claim table is exactly what they hold. */
module GpuExclusive {
  import opened JobTypes
  import opened JobSpec
  import opened JobInvariant
  import opened ServerSpec

  ghost predicate AllDifferent(ids: seq<int>) { forall i, j :: 0 <= i < j < |ids| ==> ids[i] != ids[j] }

  ghost predicate Holds(j: Job, g: int) { j.state.Running? && g in j.gpuIds }

  ghost predicate Held(q: seq<Job>, g: int) { exists k :: 0 <= k < |q| && Holds(q[k], g) }

  /** Every job has as many ids as it asked devices for; those of running jobs are different,
      in range and in nobody else's hands; the claim table is their union. */
  ghost predicate GpuQueue(q: seq<Job>, used: set<int>, total: nat) {
    && (forall k :: 0 <= k < |q| ==> q[k].waitFreeGpus && |q[k].gpuIds| == q[k].numGpus)
    && (forall k :: 0 <= k < |q| && q[k].state.Running? ==> AllDifferent(q[k].gpuIds) && InRange(q[k].gpuIds, total))
    && (forall a, b, g :: 0 <= a < b < |q| && Holds(q[a], g) ==> !Holds(q[b], g))
    && (forall g :: g in used <==> Held(q, g))
  }

  ghost predicate GpuOk(s: Server) { s.jobs.build.Gpu? && GpuQueue(s.jobs.queue, s.jobs.usedGpus, s.jobs.build.total) }

  ghost predicate QueryOk(query: GpuQuery, total: nat) {
    query.FreeLists? ==>
      forall i :: 0 <= i < |query.orders| ==> AllDifferent(query.orders[i]) && InRange(query.orders[i], total)
  }

  /** Automatic GPU jobs only; a device query names different devices that exist. */
  ghost predicate Automatic(s: Server, e: Event) {
    match e
    case Accept(_) => true
    case Launch(query) => s.jobs.build.Gpu? && QueryOk(query, s.jobs.build.total)
    case Read(i, m) => m.NewJobMsg? ==> m.request.waitFreeGpus
  }

  /** The job `id` runs, or no device id it carries is claimed. A job that waits carries the ids of
      the last device test it passed without being launched, which another job may hold by now. */
  predicate CarriesOwn(s: Jobs, id: int) {
    var k := Find(s.queue, id);
    k >= 0 ==> s.queue[k].state.Running? || ToSet(s.queue[k].gpuIds) !! s.usedGpus
  }

  /** The event is not the end of a job that carries devices of others. */
  predicate FreesOwn(s: Server, e: Event) {
    e.Read? && e.index < |s.conns| && s.conns[e.index].hasJob
    && (e.msg.EndJobMsg? || e.msg.EndOfStream? || e.msg.Unknown?) ==>
      CarriesOwn(s.jobs, s.conns[e.index].jobid)
  }

  // ---- the pick ----

  lemma {:induction false} UnclaimedPick(list: seq<int>, used: set<int>, total: nat)
    requires AllDifferent(list) && InRange(list, total)
    ensures var u := Unclaimed(list, used);
            && AllDifferent(u) && InRange(u, total)
            && forall i :: 0 <= i < |u| ==> u[i] !in used && u[i] in list
  {
    if list == [] {
    } else {
      var n := |list| - 1;
      UnclaimedPick(list[..n], used, total);
      var u := Unclaimed(list[..n], used);
      forall i | 0 <= i < |u| ensures u[i] != list[n] {
        assert u[i] in list[..n];
        var m :| 0 <= m < n && list[..n][m] == u[i];
      }
    }
  }

  /** The chosen job carries the ids its own device test gave it. */
  lemma {:induction false} ScanPick(s: Jobs, i: nat, query: GpuQuery)
    requires i <= |s.queue|
    ensures var (t, k) := Scan(s, i, query);
            k >= 0 ==> i <= k && Tentative(s, s.queue[k], k, query) == Some(t.queue[k])
    decreases |s.queue| - i
  {
    if i == |s.queue| {
    } else {
      ScanPick(s, i + 1, query);
      var t := Tentative(s, s.queue[i], i, query);
      if IsRunnable(s.queue[i]) && t.Some? {
        var s' := s.(queue := s.queue[i := t.value]);
        ScanPick(s', i + 1, query);
        var k := Scan(s', i + 1, query).1;
        if k >= 0 { assert s'.queue[k] == s.queue[k]; }
      }
    }
  }

  lemma {:induction false} ScanLengths(s: Jobs, i: nat, query: GpuQuery)
    requires i <= |s.queue| && forall k :: 0 <= k < |s.queue| ==> |s.queue[k].gpuIds| == s.queue[k].numGpus
    ensures forall k :: 0 <= k < |s.queue| ==> |Scan(s, i, query).0.queue[k].gpuIds| == s.queue[k].numGpus
    decreases |s.queue| - i
  {
    if i == |s.queue| {
    } else {
      ScanLengths(s, i + 1, query);
      var t := Tentative(s, s.queue[i], i, query);
      if IsRunnable(s.queue[i]) && t.Some? {
        ScanSame(s, i + 1, query);
        ScanLengths(s.(queue := s.queue[i := t.value]), i + 1, query);
      }
    }
  }

  // ---- the queue under changes ----

  ghost predicate GpuSame(a: Job, b: Job) {
    && b.numGpus == a.numGpus && b.waitFreeGpus == a.waitFreeGpus && |b.gpuIds| == |a.gpuIds|
    && (b.state.Running? <==> a.state.Running?)
    && (a.state.Running? ==> b.gpuIds == a.gpuIds)
  }

  lemma GpuMapped(q: seq<Job>, r: seq<Job>, used: set<int>, total: nat)
    requires GpuQueue(q, used, total) && |r| == |q| && forall i :: 0 <= i < |q| ==> GpuSame(q[i], r[i])
    ensures GpuQueue(r, used, total)
  {
    forall k | 0 <= k < |q| ensures forall g :: Holds(q[k], g) <==> Holds(r[k], g) {
      assert GpuSame(q[k], r[k]);
    }
    forall g ensures Held(q, g) <==> Held(r, g) {
      if Held(q, g) { var k :| 0 <= k < |q| && Holds(q[k], g); assert Holds(r[k], g); }
      if Held(r, g) { var k :| 0 <= k < |r| && Holds(r[k], g); assert Holds(q[k], g); }
    }
    forall k | 0 <= k < |r|
      ensures r[k].waitFreeGpus && |r[k].gpuIds| == r[k].numGpus
      ensures r[k].state.Running? ==> AllDifferent(r[k].gpuIds) && InRange(r[k].gpuIds, total)
    {
      assert GpuSame(q[k], r[k]);
    }
  }

  lemma GpuRemoved(q: seq<Job>, k: nat, used: set<int>, total: nat)
    requires GpuQueue(q, used, total) && k < |q|
    ensures GpuQueue(RemoveAt(q, k), if q[k].state.Running? then used - ToSet(q[k].gpuIds) else used, total)
  {
    var r := RemoveAt(q, k);
    RemoveAtElements(q, k);
    var used' := if q[k].state.Running? then used - ToSet(q[k].gpuIds) else used;
    forall g ensures g in used' <==> Held(r, g) {
      if g in used' {
        assert Held(q, g);
        var m :| 0 <= m < |q| && Holds(q[m], g);
        assert Holds(r[if m < k then m else m - 1], g);
      }
      if Held(r, g) {
        var m :| 0 <= m < |r| && Holds(r[m], g);
        var m' := if m < k then m else m + 1;
        assert Holds(q[m'], g) && Held(q, g);
        assert !Holds(q[k], g);
      }
    }
  }

  lemma GpuAppended(q: seq<Job>, j: Job, used: set<int>, total: nat)
    requires GpuQueue(q, used, total) && !j.state.Running? && j.waitFreeGpus && |j.gpuIds| == j.numGpus
    ensures GpuQueue(q + [j], used, total)
  {
    var r := q + [j];
    forall g ensures Held(q, g) <==> Held(r, g) {
      if Held(q, g) { var k :| 0 <= k < |q| && Holds(q[k], g); assert Holds(r[k], g); }
    }
  }

  lemma GpuPermuted(q: seq<Job>, r: seq<Job>, used: set<int>, total: nat)
    requires GpuQueue(q, used, total) && Distinct(q) && Distinct(r) && Ids(q) == Ids(r)
    requires forall i :: 0 <= i < |r| ==> r[i] in q
    ensures GpuQueue(r, used, total)
  {
    forall g ensures Held(q, g) <==> Held(r, g) {
      if Held(r, g) {
        var k :| 0 <= k < |r| && Holds(r[k], g);
        var m :| 0 <= m < |q| && q[m] == r[k];
        assert Holds(q[m], g);
      }
      if Held(q, g) {
        var k :| 0 <= k < |q| && Holds(q[k], g);
        assert q[k].id in Ids(r);
        var m :| 0 <= m < |r| && r[m].id == q[k].id;
        var n :| 0 <= n < |q| && q[n] == r[m];
        assert n == k && Holds(r[m], g);
      }
    }
    forall a, b, g | 0 <= a < b < |r| && Holds(r[a], g) ensures !Holds(r[b], g) {
      var a' :| 0 <= a' < |q| && q[a'] == r[a];
      var b' :| 0 <= b' < |q| && q[b'] == r[b];
      assert a' != b';
      assert Holds(q[a'], g);
    }
  }

  lemma GpuStarted(q: seq<Job>, k: nat, j: Job, used: set<int>, total: nat)
    requires GpuQueue(q, used, total) && k < |q| && !q[k].state.Running? && j.state.Running?
    requires j.waitFreeGpus && |j.gpuIds| == j.numGpus && AllDifferent(j.gpuIds) && InRange(j.gpuIds, total)
    requires forall i :: 0 <= i < |j.gpuIds| ==> j.gpuIds[i] !in used
    ensures GpuQueue(q[k := j], used + ToSet(j.gpuIds), total)
  {
    var r := q[k := j];
    forall g ensures g in used + ToSet(j.gpuIds) <==> Held(r, g) {
      if g in used {
        assert Held(q, g);
        var m :| 0 <= m < |q| && Holds(q[m], g);
        assert Holds(r[m], g);
      } else if g in ToSet(j.gpuIds) {
        assert Holds(r[k], g);
      }
      if Held(r, g) {
        var m :| 0 <= m < |r| && Holds(r[m], g);
        if m != k { assert Holds(q[m], g) && Held(q, g); }
      }
    }
    forall a, b, g | 0 <= a < b < |r| && Holds(r[a], g) ensures !Holds(r[b], g) {
      if a == k {
        assert g !in used;
        assert !Held(q, g);
        assert !Holds(q[b], g);
      } else if b == k {
        assert Holds(q[a], g);
        assert Held(q, g);
        assert g in used;
      } else {
        assert Holds(q[a], g);
      }
    }
  }
}
