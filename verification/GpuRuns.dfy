/** `GpuOk` over whole runs. */
module GpuRuns {
  import opened JobTypes
  import opened JobSpec
  import opened JobInvariant
  import opened ServerSpec
  import opened ServerInvariant
  import opened Waiting
  import opened ProtocolRuns
  import opened GpuExclusive
  import opened FailureRuns
  import Ops = JobOperations

  /** A state with the same devices in the same hands. */
  lemma GpuStays(s: Jobs, t: Jobs)
    requires s.build.Gpu? && t.build == s.build && t.usedGpus == s.usedGpus
    requires GpuQueue(s.queue, s.usedGpus, s.build.total)
    requires |t.queue| == |s.queue| && forall i :: 0 <= i < |s.queue| ==> GpuSame(s.queue[i], t.queue[i])
    ensures GpuQueue(t.queue, t.usedGpus, t.build.total)
  {
    GpuMapped(s.queue, t.queue, s.usedGpus, s.build.total);
  }

  lemma CheckNotifyQueue(s: Jobs, id: int, i: nat)
    requires CheckNotifyFrom(s, id, i).Some?
    ensures var t := CheckNotifyFrom(s, id, i).value;
            t.queue == s.queue && t.usedGpus == s.usedGpus && t.build == s.build
  {
  }

  /** The claim table is determined by the queue. */
  lemma ClaimsUnique(q: seq<Job>, used: set<int>, other: set<int>, total: nat)
    requires GpuQueue(q, used, total)
    ensures GpuQueue(q, other, total) <==> other == used
  {
    if GpuQueue(q, other, total) {
      forall g ensures g in other <==> g in used { assert Held(q, g) <==> g in used; }
    }
  }

  /** The devices that are given back when the job at position `k` leaves the queue are its own. */
  lemma FreedOwn(s: Jobs, k: nat)
    requires s.build.Gpu? && GpuQueue(s.queue, s.usedGpus, s.build.total) && k < |s.queue|
    ensures GpuQueue(RemoveAt(s.queue, k), s.usedGpus - ToSet(s.queue[k].gpuIds), s.build.total) <==>
              s.queue[k].state.Running? || ToSet(s.queue[k].gpuIds) !! s.usedGpus
  {
    var ids := ToSet(s.queue[k].gpuIds);
    GpuRemoved(s.queue, k, s.usedGpus, s.build.total);
    if !s.queue[k].state.Running? {
      ClaimsUnique(RemoveAt(s.queue, k), s.usedGpus, s.usedGpus - ids, s.build.total);
      if s.usedGpus - ids == s.usedGpus {
        forall g | g in ids ensures g !in s.usedGpus { assert g !in s.usedGpus - ids; }
      }
    }
  }

  /** job_finished gives back the devices of the job that ends, also when it never ran. That keeps
      the claims exact if and only if the job runs or carries no claimed device. */
  lemma EndGpu(s: Server, i: nat, r: Result)
    requires Core(s) && GpuOk(s) && i < |s.conns| && s.conns[i].hasJob && EndJob(s, i, r).Some?
    ensures GpuOk(EndJob(s, i, r).value) <==> CarriesOwn(s.jobs, s.conns[i].jobid)
  {
    HolderHasJob(s, i);
    var id := s.conns[i].jobid;
    var k := Find(s.jobs.queue, id);
    EndUnfold(s.jobs, r, id);
    var total := s.jobs.build.total;
    var j := s.jobs.queue[k];
    var s1 := FreeGpus(s.jobs, j).value;
    var u := AfterEnd(s.jobs, k, r);
    NotifyAllSame(RecordEnd(s1, k, r), j.notifyTo, r.errorlevel);
    FreedOwn(s.jobs, k);
    GpuSurvivors(s.jobs.queue, u.queue, k);
    GpuMappedBoth(RemoveAt(s.jobs.queue, k), RemoveAt(u.queue, k), s1.usedGpus, total);
    CheckNotifyQueue(Retire(u, k).value, id, 0);
  }

  ghost predicate GpuSameJobs(q: seq<Job>, r: seq<Job>) {
    |r| == |q| && forall i :: 0 <= i < |q| ==> GpuSame(q[i], r[i])
  }

  lemma GpuSurvivors(q: seq<Job>, u: seq<Job>, k: nat)
    requires |u| == |q| && k < |q| && forall i :: 0 <= i < |q| && i != k ==> GpuSame(q[i], u[i])
    ensures GpuSameJobs(RemoveAt(q, k), RemoveAt(u, k))
  {
    RemoveAtElements(q, k);
    RemoveAtElements(u, k);
  }

  lemma GpuMappedBoth(q: seq<Job>, r: seq<Job>, used: set<int>, total: nat)
    requires GpuSameJobs(q, r)
    ensures GpuQueue(q, used, total) <==> GpuQueue(r, used, total)
  {
    if GpuQueue(q, used, total) {
      GpuMapped(q, r, used, total);
    } else if GpuQueue(r, used, total) {
      GpuMapped(r, q, used, total);
    }
  }

  lemma DisappearGpu(s: Server, i: nat)
    requires Core(s) && GpuOk(s) && i < |s.conns| && Disappear(s, i).Some?
    ensures GpuOk(Disappear(s, i).value) <==> (s.conns[i].hasJob ==> CarriesOwn(s.jobs, s.conns[i].jobid))
  {
    if s.conns[i].hasJob { EndGpu(s, i, KILLED); }
  }

  lemma NewJobGpu(s: Jobs, r: Request)
    requires JobsOk(s) && s.build.Gpu? && GpuQueue(s.queue, s.usedGpus, s.build.total) && NewJob(s, r).Some?
    requires r.waitFreeGpus
    ensures var t := NewJob(s, r).value;
            && t.build == s.build && t.usedGpus == s.usedGpus && GpuQueue(t.queue, t.usedGpus, t.build.total)
            && |t.queue| == |s.queue| + 1 && t.queue[|s.queue|].gpuIds == seq(r.gpus, _ => -1)
  {
    var me := Enqueued(s, r);
    Ops.AddDependenciesDefined(s, me, r.dependOn);
    forall i | 0 <= i < |s.queue| ensures s.queue[i].id < me.id { assert LiveJob(s.queue[i], s.nextId); }
    AddDependenciesSame(s, me, r.dependOn);
    var (s', me') := AddDependencies(s, me, r.dependOn).value;
    GpuMapped(s.queue, s'.queue, s.usedGpus, s.build.total);
    GpuAppended(s'.queue, me', s.usedGpus, s.build.total);
  }

  lemma EnqueueGpu(s: Server, i: nat, r: Request)
    requires Core(s) && GpuOk(s) && i < |s.conns| && !s.conns[i].hasJob && EnqueueFor(s, i, r).Some?
    requires Automatic(s, Read(i, NewJobMsg(r)))
    ensures GpuOk(EnqueueFor(s, i, r).value)
  {
    var id := s.jobs.nextId;
    var socket := s.conns[i].socket;
    NewJobGpu(s.jobs, r);
    Ops.NewJobOk(s.jobs, r);
    var jobs := NewJob(s.jobs, r).value;
    HeldSet(s.conns, i, Conn(socket, true, id));
    FindAt(jobs.queue, |s.jobs.queue|);
    var s1 := s.(jobs := jobs, conns := s.conns[i := Conn(socket, true, id)]);
    if jobs.queue[|s.jobs.queue|].state.HoldingClient? && !r.waitEnqueuing {
      RefusedGpu(s1, i, id, |s.jobs.queue|, r.gpus);
    }
  }

  /** A job that is refused, at position `n` of the queue, has no devices: with ids -1 its end would
      not go through. */
  lemma RefusedGpu(s: Server, i: nat, id: int, n: nat, gpus: nat)
    requires Core(s) && GpuOk(s) && i < |s.conns| && s.conns[i].hasJob && s.conns[i].jobid == id
    requires n < |s.jobs.queue| && s.jobs.queue[n].id == id && s.jobs.queue[n].gpuIds == seq(gpus, _ => -1)
    requires Disappear(Send(s, NewJobNok(s.conns[i].socket, id)), i).Some?
    ensures GpuOk(Disappear(Send(s, NewJobNok(s.conns[i].socket, id)), i).value)
  {
    var t := Send(s, NewJobNok(s.conns[i].socket, id));
    FindAt(s.jobs.queue, n);
    EndUnfold(t.jobs, KILLED, id);
    var ids := s.jobs.queue[n].gpuIds;
    assert InRange(ids, s.jobs.build.total);
    assert ToSet(ids) == {};
    DisappearGpu(t, i);
  }

  lemma RemoveGpu(s: Jobs, socket: int, id: int)
    requires JobsOk(s) && s.build.Gpu? && GpuQueue(s.queue, s.usedGpus, s.build.total) && RemoveJob(s, socket, id).Some?
    ensures var t := RemoveJob(s, socket, id).value.0;
            t.build == s.build && t.usedGpus == s.usedGpus && GpuQueue(t.queue, t.usedGpus, t.build.total)
  {
    match Locate(s, id)
    case Nowhere =>
    case InQueue(k) => if !(k == 0 || s.queue[k].state.Running?) { RemoveQueuedGpu(s, socket, k); }
    case InFinished(k) =>
      var s1 := s.(finished := s.finished[k := Dropped(s.finished[k])], lastErrorlevel := -1);
      var u := NotifyAll(s1, s.finished[k].notifyTo, -1);
      NotifyAllSame(s1, s.finished[k].notifyTo, -1);
      GpuStays(s, u);
      CheckNotifyQueue(u, 0, 0);
  }

  lemma RemoveQueuedGpu(s: Jobs, socket: int, k: nat)
    requires JobsOk(s) && s.build.Gpu? && GpuQueue(s.queue, s.usedGpus, s.build.total)
    requires k < |s.queue| && !s.queue[k].state.Running? && RemoveQueuedAt(s, socket, k).Some?
    ensures var t := RemoveQueuedAt(s, socket, k).value;
            t.build == s.build && t.usedGpus == s.usedGpus && GpuQueue(t.queue, t.usedGpus, t.build.total)
  {
    var s1 := s.(queue := s.queue[k := Dropped(s.queue[k])], lastErrorlevel := -1);
    var u := NotifyAll(s1, s.queue[k].notifyTo, -1);
    NotifyAllSame(s1, s.queue[k].notifyTo, -1);
    forall i | 0 <= i < |s.queue| ensures GpuSame(s.queue[i], u.queue[i]) {
    }
    GpuStays(s, u);
    GpuRemoved(u.queue, k, u.usedGpus, u.build.total);
    CheckNotifyQueue(u, 0, 0);
  }

  lemma OrderGpu(s: Jobs, t: Jobs)
    requires ListsOk(s) && s.build.Gpu? && GpuQueue(s.queue, s.usedGpus, s.build.total)
    requires Reordered(s, t) && Distinct(t.queue) && t.build == s.build && t.usedGpus == s.usedGpus
    ensures GpuQueue(t.queue, t.usedGpus, t.build.total)
  {
    GpuPermuted(s.queue, t.queue, s.usedGpus, s.build.total);
  }

  lemma UrgentGpu(s: Jobs, socket: int, id: int)
    requires JobsOk(s) && s.build.Gpu? && GpuQueue(s.queue, s.usedGpus, s.build.total)
    requires MoveUrgent(s, socket, id).Some?
    ensures var t := MoveUrgent(s, socket, id).value;
            t.build == s.build && t.usedGpus == s.usedGpus && GpuQueue(t.queue, t.usedGpus, t.build.total)
  {
    UrgentFrame(s, socket, id);
    Ops.MoveUrgentOk(s, socket, id);
    OrderGpu(s, MoveUrgent(s, socket, id).value);
  }

  lemma SwapGpu(s: Jobs, socket: int, id1: int, id2: int)
    requires JobsOk(s) && s.build.Gpu? && GpuQueue(s.queue, s.usedGpus, s.build.total)
    ensures var t := SwapJobs(s, socket, id1, id2);
            t.build == s.build && t.usedGpus == s.usedGpus && GpuQueue(t.queue, t.usedGpus, t.build.total)
  {
    SwapFrame(s, socket, id1, id2);
    Ops.SwapJobsOk(s, socket, id1, id2);
    OrderGpu(s, SwapJobs(s, socket, id1, id2));
  }

  lemma OrderMsgGpu(s: Server, i: nat, m: Msg)
    requires Core(s) && GpuOk(s) && i < |s.conns| && (m.UrgentMsg? || m.SwapJobsMsg?) && ReadMsg(s, i, m).Some?
    ensures GpuOk(ReadMsg(s, i, m).value)
  {
    if m.UrgentMsg? {
      UrgentGpu(s.jobs, s.conns[i].socket, m.id);
    } else {
      SwapGpu(s.jobs, s.conns[i].socket, m.id1, m.id2);
    }
  }

  lemma ReadGpu(s: Server, i: nat, m: Msg)
    requires Core(s) && GpuOk(s) && i < |s.conns| && ClientOk(s, Read(i, m)) && Automatic(s, Read(i, m))
    requires ReadMsg(s, i, m).Some?
    ensures GpuOk(ReadMsg(s, i, m).value) <==> FreesOwn(s, Read(i, m))
  {
    if Harmless(m) {
      HarmlessFrame(s, i, m);
    } else if m.ClosingQuery? || m.Info? {
      ClosingFrame(s, i, m);
    } else if m.UrgentMsg? || m.SwapJobsMsg? {
      OrderMsgGpu(s, i, m);
    } else {
      match m
      case NewJobMsg(r) => EnqueueGpu(s, i, r);
      case EndJobMsg(r) => RunningOnly(s.jobs, s.conns[i].jobid); EndGpu(s, i, r);
      case RemoveJobMsg(id) => RemoveGpu(s.jobs, s.conns[i].socket, id);
      case Unknown => DisappearGpu(s, i);
      case EndOfStream => DisappearGpu(s, i);
    }
  }

  lemma RunningOnly(s: Jobs, id: int)
    requires Distinct(s.queue) && JobRuns(s, id)
    ensures CarriesOwn(s, id)
  {
    var k :| 0 <= k < |s.queue| && s.queue[k].id == id && s.queue[k].state.Running?;
    FindAt(s.queue, k);
  }

  // ---- the launch ----

  /** The ids the launch gives to its job are unclaimed, different and in range, so it never fails. */
  lemma PickGpu(s: Jobs, query: GpuQuery)
    requires s.build.Gpu? && GpuQueue(s.queue, s.usedGpus, s.build.total) && QueryOk(query, s.build.total)
    ensures NextRunJob(s, query).Some?
    ensures var (t, k) := NextRunJob(s, query).value;
            && t.build == s.build && |t.queue| == |s.queue|
            && t.usedGpus == (if k >= 0 then s.usedGpus + ToSet(t.queue[k].gpuIds) else s.usedGpus)
            && (forall i :: 0 <= i < |t.queue| ==> |t.queue[i].gpuIds| == s.queue[i].numGpus)
            && (k >= 0 ==> AllDifferent(t.queue[k].gpuIds) && InRange(t.queue[k].gpuIds, s.build.total))
            && (k >= 0 ==> forall i :: 0 <= i < |t.queue[k].gpuIds| ==> t.queue[k].gpuIds[i] !in s.usedGpus)
  {
    if !(s.maxSlots - s.busy <= 0 || s.queue == []) {
      ScanPick(s, 0, query);
      ScanLengths(s, 0, query);
      ScanSame(s, 0, query);
      var (t, k) := Scan(s, 0, query);
      if k >= 0 {
        var j := s.queue[k];
        if j.numGpus == 0 {
          assert t.queue[k].gpuIds == [];
        } else {
          var list := if k < |query.orders| then query.orders[k] else [];
          UnclaimedPick(list, s.usedGpus, s.build.total);
        }
      }
    }
  }

  lemma {:induction false} WakeGpu(s: Server)
    requires Core(s) && GpuOk(s) && WakeAll(s).Some?
    ensures GpuOk(WakeAll(s).value)
    decreases Holding(s.jobs.queue)
  {
    var k := FindHolding(s.jobs.queue);
    if k < 0 {
    } else {
      var j := s.jobs.queue[k];
      HoldingUpdate(s.jobs.queue, k, Woken(j));
      Ops.ChangeStateOk(s.jobs, k, Woken(j));
      GpuMapped(s.jobs.queue, s.jobs.queue[k := Woken(j)], s.jobs.usedGpus, s.jobs.build.total);
      WakeGpu(Send(s.(jobs := WakeHoldClient(s.jobs).0), NewJobOk(s.conns[ConnOf(s.conns, j.id)].socket, j.id)));
    }
  }

  lemma PickedQueue(s: Jobs, query: GpuQuery)
    requires s.build.Gpu? && GpuQueue(s.queue, s.usedGpus, s.build.total) && QueryOk(query, s.build.total)
    ensures NextRunJob(s, query).Some?
    ensures GpuQueue(NextRunJob(s, query).value.0.queue, s.usedGpus, s.build.total)
  {
    PickGpu(s, query);
    LaunchLinks(s, query);
    ScanSame(s, 0, query);
    var t := NextRunJob(s, query).value.0;
    forall i | 0 <= i < |t.queue| ensures GpuSame(s.queue[i], t.queue[i]) {
    }
    GpuMapped(s.queue, t.queue, s.usedGpus, s.build.total);
  }

  lemma StartedGpu(s: Server, k: nat, used: set<int>, t: Server)
    requires ListsOk(s.jobs) && s.jobs.build.Gpu? && k < |s.jobs.queue| && !s.jobs.queue[k].state.Running?
    requires GpuQueue(s.jobs.queue, used, s.jobs.build.total) && s.jobs.usedGpus == used + ToSet(s.jobs.queue[k].gpuIds)
    requires var ids := s.jobs.queue[k].gpuIds;
             AllDifferent(ids) && InRange(ids, s.jobs.build.total) && forall i :: 0 <= i < |ids| ==> ids[i] !in used
    requires StartJob(s, k) == Some(t)
    ensures GpuOk(t)
  {
    FindAt(s.jobs.queue, k);
    GpuStarted(s.jobs.queue, k, s.jobs.queue[k].(state := Running), used, s.jobs.build.total);
  }

  lemma LaunchGpu(s: Server, query: GpuQuery)
    requires Core(s) && GpuOk(s) && QueryOk(query, s.jobs.build.total)
    ensures LaunchOne(s, query).Some? && GpuOk(LaunchOne(s, query).value)
  {
    PickGpu(s.jobs, query);
    PickedQueue(s.jobs, query);
    Ops.NextRunJobOk(s.jobs, query);
    var (jobs, k) := NextRunJob(s.jobs, query).value;
    if k >= 0 {
      StartJobCore(s, jobs, k);
      var t := StartJob(s.(jobs := jobs), k).value;
      StartedGpu(s.(jobs := jobs), k, s.jobs.usedGpus, t);
      WakeAllCore(t);
      WakeGpu(t);
    }
  }

  /** One event keeps the claims exact if and only if it does not end a waiting job that carries
      devices of a running one. */
  lemma StepGpu(s: Server, e: Event)
    requires Core(s) && GpuOk(s) && ClientOk(s, e) && Automatic(s, e) && Step(s, e).Some?
    ensures GpuOk(Step(s, e).value) <==> FreesOwn(s, e)
  {
    match e
    case Accept(_) =>
    case Launch(query) => LaunchGpu(s, query);
    case Read(i, m) => if i < |s.conns| { ReadGpu(s, i, m); }
  }

  lemma GpuNone(s: Server)
    requires Initial(s) && s.jobs.build.Gpu?
    ensures GpuOk(s)
  {
  }

  /** A run of a GPU build in which all GPU jobs are automatic. */
  ghost predicate AutomaticRun(states: seq<Server>, evs: seq<Event>) {
    IsRun(states, evs) && states[0].jobs.build.Gpu? && forall i :: 0 <= i < |evs| ==> Automatic(states[i], evs[i])
  }

  lemma NextGpu(states: seq<Server>, evs: seq<Event>, n: nat)
    requires AutomaticRun(states, evs) && n < |evs| && GpuOk(states[n])
    ensures GpuOk(states[n + 1]) <==> FreesOwn(states[n], evs[n])
  {
    RunCore(states, evs, n);
    assert ClientOk(states[n], evs[n]) && Step(states[n], evs[n]) == Some(states[n + 1]);
    assert Automatic(states[n], evs[n]);
    StepGpu(states[n], evs[n]);
  }

  lemma {:induction false} RunGpu(states: seq<Server>, evs: seq<Event>, n: nat)
    requires AutomaticRun(states, evs) && n < |states|
    requires forall i :: 0 <= i < n ==> FreesOwn(states[i], evs[i])
    ensures GpuOk(states[n])
  {
    if n == 0 {
      GpuNone(states[0]);
    } else {
      RunGpu(states, evs, n - 1);
      NextGpu(states, evs, n - 1);
    }
  }

  /** The claims are exact throughout a run if and only if no event of it frees devices of others. */
  lemma RunGpuExactly(states: seq<Server>, evs: seq<Event>)
    requires AutomaticRun(states, evs)
    ensures (forall n :: 0 <= n < |states| ==> GpuOk(states[n])) <==>
            (forall i :: 0 <= i < |evs| ==> FreesOwn(states[i], evs[i]))
  {
    if forall i :: 0 <= i < |evs| ==> FreesOwn(states[i], evs[i]) {
      forall n | 0 <= n < |states| ensures GpuOk(states[n]) { RunGpu(states, evs, n); }
    }
    if forall n :: 0 <= n < |states| ==> GpuOk(states[n]) {
      forall i | 0 <= i < |evs| ensures FreesOwn(states[i], evs[i]) {
        assert GpuOk(states[i]) && GpuOk(states[i + 1]);
        NextGpu(states, evs, i);
      }
    }
  }

  /** At every point of every such run, as long as no event freed devices of others, two running jobs
      share no device, each holds as many different devices as it asked for, and a device is marked
      exactly when some running job holds it. */
  lemma RunExclusive(states: seq<Server>, evs: seq<Event>, n: nat)
    requires AutomaticRun(states, evs) && n < |states|
    requires forall i :: 0 <= i < n ==> FreesOwn(states[i], evs[i])
    ensures var q := states[n].jobs.queue;
            && (forall a, b :: 0 <= a < b < |q| && q[a].state.Running? && q[b].state.Running? ==>
                  ToSet(q[a].gpuIds) !! ToSet(q[b].gpuIds))
            && (forall a :: 0 <= a < |q| && q[a].state.Running? ==>
                  |q[a].gpuIds| == q[a].numGpus && AllDifferent(q[a].gpuIds))
            && (forall g :: g in states[n].jobs.usedGpus <==> Held(q, g))
  {
    RunGpu(states, evs, n);
    var q := states[n].jobs.queue;
    forall a, b | 0 <= a < b < |q| && q[a].state.Running? && q[b].state.Running?
      ensures ToSet(q[a].gpuIds) !! ToSet(q[b].gpuIds)
    {
      forall g | g in ToSet(q[a].gpuIds) ensures g !in ToSet(q[b].gpuIds) {
        assert Holds(q[a], g);
        assert !Holds(q[b], g);
      }
    }
  }
}
