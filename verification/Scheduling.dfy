/** Which job a launch picks, when it picks one, and in which order jobs run. */
module Scheduling {
  import opened JobTypes
  import opened JobSpec
  import opened JobInvariant
  import opened ServerSpec
  import opened ServerInvariant
  import opened Protocol
  import Ops = JobOperations

  /** The job at position `i` can be launched: it is waiting, the devices suffice, none of its
      dependencies is unfinished, and it fits the free slots. */
  predicate Eligible(s: Jobs, i: nat, query: GpuQuery)
    requires i < |s.queue|
  {
    var j := s.queue[i];
    IsRunnable(j) && Tentative(s, j, i, query).Some? && !Blocked(s, j) && j.numSlots <= s.maxSlots - s.busy
  }

  /** The device ids a scan writes do not show in any later test. */
  lemma EligibleSame(s: Jobs, i: nat, j: Job, m: nat, query: GpuQuery)
    requires i < m < |s.queue| && j == s.queue[i].(gpuIds := j.gpuIds)
    ensures Eligible(s.(queue := s.queue[i := j]), m, query) == Eligible(s, m, query)
  {
    BlockedSame(s, s.(queue := s.queue[i := j]), s.queue[m]);
  }

  lemma BlockedSame(s: Jobs, t: Jobs, j: Job)
    requires t == s.(queue := t.queue) && |t.queue| == |s.queue|
    requires forall k :: 0 <= k < |s.queue| ==> t.queue[k].id == s.queue[k].id && t.queue[k].state == s.queue[k].state
    ensures Blocked(t, j) == Blocked(s, j)
  {
    forall d ensures DependencyUnfinished(t, d) == DependencyUnfinished(s, d) { FindSame(s.queue, t.queue, d); }
  }

  lemma {:induction false} ScanFirstFit(s: Jobs, i: nat, query: GpuQuery)
    requires i <= |s.queue|
    ensures var k := Scan(s, i, query).1;
            && (k < 0 ==> forall m :: i <= m < |s.queue| ==> !Eligible(s, m, query))
            && (k >= 0 ==> i <= k && Eligible(s, k, query) && forall m :: i <= m < k ==> !Eligible(s, m, query))
    decreases |s.queue| - i
  {
    if i == |s.queue| {
    } else {
      var t := Tentative(s, s.queue[i], i, query);
      if !IsRunnable(s.queue[i]) || t.None? {
        ScanFirstFit(s, i + 1, query);
      } else {
        var s' := s.(queue := s.queue[i := t.value]);
        BlockedSame(s, s', s.queue[i]);
        BlockedIgnoresGpus(s', s.queue[i], t.value);
        if Blocked(s', t.value) || t.value.numSlots > s.maxSlots - s.busy {
          ScanFirstFit(s', i + 1, query);
          forall m | i < m < |s.queue| ensures Eligible(s', m, query) == Eligible(s, m, query) {
            EligibleSame(s, i, t.value, m, query);
          }
        }
      }
    }
  }

  lemma BlockedIgnoresGpus(s: Jobs, a: Job, b: Job)
    requires b == a.(gpuIds := b.gpuIds)
    ensures Blocked(s, a) == Blocked(s, b)
  {
  }

  /** First fit: with a slot free, next_run_job picks the first eligible job in queue order, and
      none exactly when none is eligible; it leaves the order of the queue alone. */
  lemma FirstFit(s: Jobs, query: GpuQuery)
    requires NextRunJob(s, query).Some?
    ensures var (t, k) := NextRunJob(s, query).value;
            && SameJobs(s.queue, t.queue)
            && (k < 0 <==> s.busy >= s.maxSlots || forall m :: 0 <= m < |s.queue| ==> !Eligible(s, m, query))
            && (k >= 0 ==> Eligible(s, k, query) && forall m :: 0 <= m < k ==> !Eligible(s, m, query))
  {
    ScanFirstFit(s, 0, query);
    ScanSame(s, 0, query);
  }

  // ---- deadlock freedom ----

  lemma {:induction false} IdleSlots(q: seq<Job>)
    requires forall i :: 0 <= i < |q| ==> !q[i].state.Running?
    ensures RunSlots(q) == 0
  {
    if q == [] {
    } else {
      IdleSlots(q[..|q| - 1]);
    }
  }

  lemma {:induction false} LeastRunnable(q: seq<Job>) returns (m: nat)
    requires exists i :: 0 <= i < |q| && IsRunnable(q[i])
    ensures m < |q| && IsRunnable(q[m])
    ensures forall i :: 0 <= i < |q| && IsRunnable(q[i]) ==> q[m].id <= q[i].id
  {
    var n := |q| - 1;
    if exists i :: 0 <= i < n && IsRunnable(q[..n][i]) {
      m := LeastRunnable(q[..n]);
      assert forall i :: 0 <= i < n ==> q[..n][i] == q[i];
      if IsRunnable(q[n]) && q[n].id < q[m].id { m := n; }
    } else {
      assert forall i :: 0 <= i < n ==> q[..n][i] == q[i];
      m := n;
    }
  }

  /** Every recorded dependency is older than its owner, so the oldest waiting job is never blocked
      when nothing runs. */
  lemma OldestUnblocked(s: Jobs, m: nat)
    requires JobsOk(s) && m < |s.queue|
    requires forall i :: 0 <= i < |s.queue| ==> !s.queue[i].state.Running?
    requires forall i :: 0 <= i < |s.queue| && IsRunnable(s.queue[i]) ==> s.queue[m].id <= s.queue[i].id
    ensures !Blocked(s, s.queue[m])
  {
    var j := s.queue[m];
    forall i | 0 <= i < |j.dependOn| ensures !DependencyUnfinished(s, j.dependOn[i]) {
      var d := j.dependOn[i];
      assert LiveJob(j, s.nextId) && d < j.id;
    }
  }

  /** Deadlock freedom of a CPU build: when jobs wait, nothing runs, and every waiting job asks for
      no more slots than there are, the launch starts one, whatever the order of the queue is. */
  lemma LaunchProgress(s: Server, query: GpuQuery)
    requires Core(s) && s.jobs.build.Cpu?
    requires exists i :: 0 <= i < |s.jobs.queue| && IsRunnable(s.jobs.queue[i])
    requires forall i :: 0 <= i < |s.jobs.queue| ==> !s.jobs.queue[i].state.Running?
    requires forall i :: 0 <= i < |s.jobs.queue| && IsRunnable(s.jobs.queue[i]) ==>
               s.jobs.queue[i].numSlots <= s.jobs.maxSlots
    ensures NextRunJob(s.jobs, query).Some? && NextRunJob(s.jobs, query).value.1 >= 0
    ensures LaunchOne(s, query).Some?
    ensures exists i :: 0 <= i < |LaunchOne(s, query).value.jobs.queue|
                     && LaunchOne(s, query).value.jobs.queue[i].state.Running?
  {
    var m := LeastRunnable(s.jobs.queue);
    OldestUnblocked(s.jobs, m);
    IdleSlots(s.jobs.queue);
    assert Eligible(s.jobs, m, query);
    FirstFit(s.jobs, query);
    Ops.NextRunJobOk(s.jobs, query);
    var (jobs, k) := NextRunJob(s.jobs, query).value;
    StartedRuns(s, jobs, k);
  }

  lemma StartedRuns(s: Server, jobs: Jobs, k: nat)
    requires Core(s) && ListsOk(jobs) && Ids(jobs.queue) == Ids(s.jobs.queue) && k < |jobs.queue|
    requires jobs.busy == RunSlots(jobs.queue) + jobs.queue[k].numSlots && !jobs.queue[k].state.Running?
    requires jobs.maxSlots == s.jobs.maxSlots && jobs.nextId == s.jobs.nextId
    requires jobs.lastFinishedId == s.jobs.lastFinishedId
    ensures var t := StartJob(s.(jobs := jobs), k);
            && t.Some? && WakeAll(t.value).Some?
            && k < |WakeAll(t.value).value.jobs.queue| && WakeAll(t.value).value.jobs.queue[k].state.Running?
  {
    StartJobCore(s, jobs, k);
    FindAt(jobs.queue, k);
    var t := StartJob(s.(jobs := jobs), k).value;
    WakeAllCore(t);
    WakeKeepsRunning(t, k);
  }

  lemma {:induction false} WakeKeepsRunning(s: Server, k: nat)
    requires WakeAll(s).Some? && k < |s.jobs.queue| && s.jobs.queue[k].state.Running?
    ensures k < |WakeAll(s).value.jobs.queue| && WakeAll(s).value.jobs.queue[k] == s.jobs.queue[k]
    decreases Holding(s.jobs.queue)
  {
    var h := FindHolding(s.jobs.queue);
    if h < 0 {
    } else {
      HoldingUpdate(s.jobs.queue, h, Woken(s.jobs.queue[h]));
      WakeKeepsRunning(Send(s.(jobs := WakeHoldClient(s.jobs).0),
                            NewJobOk(s.conns[ConnOf(s.conns, s.jobs.queue[h].id)].socket, s.jobs.queue[h].id)), k);
    }
  }

  /** The same at every point of every run. */
  lemma RunProgress(states: seq<Server>, evs: seq<Event>, n: nat, query: GpuQuery)
    requires IsRun(states, evs) && n < |states|
    requires var s := states[n];
             && s.jobs.build.Cpu?
             && (exists i :: 0 <= i < |s.jobs.queue| && IsRunnable(s.jobs.queue[i]))
             && (forall i :: 0 <= i < |s.jobs.queue| ==> !s.jobs.queue[i].state.Running?)
             && (forall i :: 0 <= i < |s.jobs.queue| && IsRunnable(s.jobs.queue[i]) ==>
                   s.jobs.queue[i].numSlots <= s.jobs.maxSlots)
    ensures LaunchOne(states[n], query).Some?
    ensures exists i :: 0 <= i < |LaunchOne(states[n], query).value.jobs.queue|
                     && LaunchOne(states[n], query).value.jobs.queue[i].state.Running?
  {
    RunCore(states, evs, n);
    LaunchProgress(states[n], query);
  }
}
