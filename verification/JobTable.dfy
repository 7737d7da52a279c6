/** jobs.c as a class: the static variables of the file are its fields, the lists are sequences
    that the methods reassign (their links are the subject of `JobList`). Every method is tied to
    the function of the same name in `JobSpec`; `ok` is false where the process ends. */
module JobTable {
  import opened JobTypes
  import opened JobSpec
  import opened GpuTable

  lemma FindUnique(q: seq<Job>, id: int, k: int)
    requires -1 <= k < |q| && (k >= 0 ==> q[k].id == id)
    requires forall i :: 0 <= i < |q| && (k < 0 || i < k) ==> q[i].id != id
    ensures Find(q, id) == k
  {
  }

  /** findjob and find_finished_job. */
  method FindJob(q: seq<Job>, id: int) returns (k: int)
    ensures k == Find(q, id)
  {
    k := 0;
    while k < |q|
      invariant 0 <= k <= |q|
      invariant forall i :: 0 <= i < k ==> q[i].id != id
    {
      if q[k].id == id {
        FindUnique(q, id, k);
        return;
      }
      k := k + 1;
    }
    k := -1;
    FindUnique(q, id, k);
  }

  /** find_last_jobid_in_queue and find_last_stored_jobid_finished. */
  method FindLastId(q: seq<Job>) returns (last: int)
    ensures last == MaxId(q)
  {
    last := -1;
    for k := 0 to |q|
      invariant last == MaxId(q[..k])
    {
      assert q[..k + 1][..k] == q[..k];
      if q[k].id > last {
        last := q[k].id;
      }
    }
    assert q[..|q|] == q;
  }

  /** in_notify_list. */
  method InNotifyList(w: seq<Waiter>, id: int) returns (found: bool)
    ensures found <==> Awaited(w, id)
  {
    for i := 0 to |w|
      invariant forall m :: 0 <= m < i ==> w[m].jobid != id
    {
      if w[i].jobid == id {
        return true;
      }
    }
    return false;
  }

  // ---- the scan of next_run_job ----

  function QueryOf(failed: bool, orders: seq<seq<int>>): GpuQuery { if failed then QueryFailed else FreeLists(orders) }

  /** A scan of `s` from the start goes on like one of `t` from position `i`, whatever lists later
      positions will see after the lists `orders` seen so far. */
  ghost predicate ScanGoesOn(s: Jobs, t: Jobs, i: nat, orders: seq<seq<int>>, failed: bool)
    requires i <= |t.queue|
  {
    forall q :: orders <= q ==> Scan(s, 0, QueryOf(failed, q)) == Scan(t, i, QueryOf(failed, q))
  }

  /** The device test at a position that sees the list `order`. */
  function TentativeWith(s: Jobs, j: Job, order: seq<int>, failed: bool): Option<Job> {
    if s.build.Cpu? then Some(j)
    else if failed then None
    else if j.numGpus == 0 || !j.waitFreeGpus then Some(j)
    else
      var free := Unclaimed(order, s.usedGpus);
      if |free| < j.numGpus then None else Some(j.(gpuIds := free[..j.numGpus]))
  }

  lemma TentativeSeen(s: Jobs, j: Job, i: nat, q: seq<seq<int>>, failed: bool)
    requires i < |q|
    ensures Tentative(s, j, i, QueryOf(failed, q)) == TentativeWith(s, j, q[i], failed)
  {
  }

  /** One turn of the scan that does not find its job. */
  lemma ScanTurn(s: Jobs, t: Jobs, i: nat, orders: seq<seq<int>>, order: seq<int>, failed: bool, u: Jobs)
    requires i < |t.queue| && |orders| == i && ScanGoesOn(s, t, i, orders, failed)
    requires var j := t.queue[i];
             var m := TentativeWith(t, j, order, failed);
             if !IsRunnable(j) || m.None? then u == t
             else u == t.(queue := t.queue[i := m.value]) && (Blocked(u, m.value) || j.numSlots > t.maxSlots - t.busy)
    ensures ScanGoesOn(s, u, i + 1, orders + [order], failed)
  {
    forall q | orders + [order] <= q ensures Scan(s, 0, QueryOf(failed, q)) == Scan(u, i + 1, QueryOf(failed, q)) {
      assert q[i] == (orders + [order])[i];
      assert orders <= q;
      TentativeSeen(t, t.queue[i], i, q, failed);
    }
  }

  /** The turn that finds the job. */
  lemma ScanHit(s: Jobs, t: Jobs, i: nat, orders: seq<seq<int>>, order: seq<int>, failed: bool, u: Jobs)
    requires i < |t.queue| && |orders| == i && ScanGoesOn(s, t, i, orders, failed)
    requires var j := t.queue[i];
             var m := TentativeWith(t, j, order, failed);
             && IsRunnable(j) && m.Some? && u == t.(queue := t.queue[i := m.value])
             && !Blocked(u, m.value) && j.numSlots <= t.maxSlots - t.busy
    ensures Scan(s, 0, QueryOf(failed, orders + [order])) == (u, i)
  {
    var q := orders + [order];
    TentativeSeen(t, t.queue[i], i, q, failed);
  }

  class Table {
    const build: Build
    const maxJobs: int
    const maxFinished: nat
    const devices: Devices

    var queue: seq<Job>
    var finished: seq<Job>
    var waiters: seq<Waiter>
    var jobids: int
    var busySlots: int
    var maxSlots: int
    var lastErrorlevel: int
    var lastFinishedId: int
    /** What has been written to the sockets. */
    var sent: seq<Sent>

    ghost predicate Valid()
      reads this
    {
      build.Gpu? ==> devices.used.Length == build.total
    }

    ghost function Abs(): Jobs
      reads this, devices.used
    {
      Jobs(queue, finished, waiters, jobids, busySlots, maxSlots, lastErrorlevel, lastFinishedId,
           devices.Claimed(), sent, build, maxJobs, maxFinished)
    }

    constructor (build: Build, maxJobs: int, maxFinished: nat, maxSlots: int)
      ensures Valid() && fresh(devices.used)
      ensures Abs() == Jobs([], [], [], 0, 0, maxSlots, 0, 0, {}, [], build, maxJobs, maxFinished)
    {
      this.build := build;
      this.maxJobs := maxJobs;
      this.maxFinished := maxFinished;
      var d := new Devices(if build.Gpu? then build.total else 0);
      this.devices := d;
      jobids, busySlots, lastErrorlevel, lastFinishedId := 0, 0, 0, 0;
      this.maxSlots := maxSlots;
      queue, finished, waiters, sent := [], [], [], [];
    }

    method Send(m: Sent)
      modifies this`sent
      ensures Abs() == old(Abs()).(sent := old(sent) + [m])
    {
      sent := sent + [m];
    }

    // ---- s_newjob ----

    /** One turn of the dependency loop of s_newjob. */
    method AddDependencyOf(me: Job, d: int) returns (ok: bool, me': Job)
      modifies this`queue
      ensures ok <==> AddDependency(old(Abs()), me, d).Some?
      ensures ok ==> AddDependency(old(Abs()), me, d) == Some((Abs(), me'))
    {
      me' := me;
      ok := true;
      if d >= me.id {
        return;
      }
      var on := d;
      if d == -1 {
        on := FindLastId(queue);
        if lastFinishedId > on {
          on := -1;
        }
      }
      if on != -1 {
        me' := me.(dependOn := me.dependOn + [on]);
        var k := FindJob(queue, on);
        if k >= 0 {
          queue := queue[k := AddNotify(queue[k], me.id)];
        } else if d != -1 {
          var f := FindJob(finished, d);
          me' := AddError(me', if f >= 0 then finished[f].errorlevel else 1);
        }
      } else {
        var stored := FindLastId(finished);
        me' := me.(dependOn := me.dependOn + [stored]);
        if lastFinishedId < stored {
          var f := FindJob(finished, stored);
          if f < 0 {
            return false, me';
          }
          me' := AddError(me', finished[f].errorlevel);
        } else {
          me' := AddError(me', lastErrorlevel);
        }
      }
    }

    /** The dependency loop of s_newjob. */
    method AddDependenciesOf(job: Job, deps: seq<int>) returns (ok: bool, me: Job)
      modifies this`queue
      ensures ok <==> AddDependencies(old(Abs()), job, deps).Some?
      ensures ok ==> AddDependencies(old(Abs()), job, deps) == Some((Abs(), me))
    {
      ghost var s := Abs();
      me := job;
      ok := true;
      var i := 0;
      while i < |deps|
        invariant 0 <= i <= |deps|
        invariant AddDependencies(s, job, deps[..i]) == Some((Abs(), me))
      {
        assert deps[..i + 1][..i] == deps[..i];
        ok, me := AddDependencyOf(me, deps[i]);
        if !ok {
          AddDependenciesPrefix(s, job, deps, i + 1);
          return;
        }
        i := i + 1;
      }
      assert deps[..i] == deps;
    }

    /** s_newjob. */
    method NewJob(r: Request) returns (ok: bool, id: int)
      modifies this`queue, this`jobids
      ensures ok <==> JobSpec.NewJob(old(Abs()), r).Some?
      ensures ok ==> Abs() == JobSpec.NewJob(old(Abs()), r).value && id == old(jobids)
    {
      id := jobids;
      var state := HoldingClient;
      if |queue| + 1 < maxJobs {
        state := if r.gpus != 0 then Allocating else Queued;
      }
      var me := Job(id, state, r.numSlots,
                    if r.waitFreeGpus then r.gpus else |r.gpuIds|,
                    r.waitFreeGpus,
                    if r.waitFreeGpus then seq(r.gpus, _ => -1) else r.gpuIds,
                    r.keep, [], [], 0, 0);
      assert me == Enqueued(Abs(), r);
      ok, me := AddDependenciesOf(me, r.dependOn);
      if ok {
        queue := queue + [me];
        jobids := jobids + 1;
      }
    }

    lemma {:induction false} AddDependenciesPrefix(s: Jobs, me: Job, deps: seq<int>, i: nat)
      requires i <= |deps| && AddDependencies(s, me, deps[..i]).None?
      ensures AddDependencies(s, me, deps).None?
      decreases |deps| - i
    {
      if i == |deps| {
        assert deps[..i] == deps;
      } else {
        assert deps[..i + 1][..i] == deps[..i];
        AddDependenciesPrefix(s, me, deps, i + 1);
      }
    }

    // ---- notify_errorlevel ----

    /** notify_errorlevel. */
    method NotifyErrorlevel(ids: seq<int>, errorlevel: int)
      modifies this`queue, this`finished, this`lastErrorlevel
      ensures Abs() == NotifyAll(old(Abs()).(lastErrorlevel := errorlevel), ids, errorlevel)
    {
      lastErrorlevel := errorlevel;
      ghost var s := Abs();
      var i := 0;
      while i < |ids|
        invariant 0 <= i <= |ids|
        invariant Abs() == NotifyAll(s, ids[..i], errorlevel)
      {
        assert ids[..i + 1][..i] == ids[..i];
        var k := FindJob(queue, ids[i]);
        if k >= 0 {
          queue := queue[k := AddError(queue[k], errorlevel)];
        } else {
          var f := FindJob(finished, ids[i]);
          if f >= 0 {
            finished := finished[f := AddError(finished[f], errorlevel)];
          }
        }
        i := i + 1;
      }
      assert ids[..i] == ids;
    }

    // ---- job_finished ----

    /** new_finished_job. */
    method NewFinishedJob(j: Job) returns (ok: bool)
      modifies this`finished
      ensures ok <==> NewFinished(old(finished), j, maxFinished).Some?
      ensures ok ==> Some(finished) == NewFinished(old(finished), j, maxFinished)
    {
      ok := true;
      if |finished| == 0 && 0 < maxFinished {
        finished := [j];
        return;
      }
      if |finished| >= maxFinished {
        if |finished| <= 1 {
          // the only node is freed and then written to, or there is none to walk from
          return false;
        }
        finished := finished[1..];
      }
      finished := finished + [j];
    }

    /** The end of job_finished: the job changes lists. */
    method RetireJob(k: nat) returns (ok: bool)
      requires k < |queue|
      modifies this`queue, this`finished
      ensures ok <==> Retire(old(Abs()), k).Some?
      ensures ok ==> Abs() == Retire(old(Abs()), k).value
    {
      var awaited := InNotifyList(waiters, queue[k].id);
      ok := true;
      if queue[k].keep || awaited {
        ok := NewFinishedJob(queue[k]);
      }
      queue := RemoveAt(queue, k);
    }

    /** The middle of job_finished: slots are given back, the result is recorded and told. */
    method RecordEndOf(k: nat, result: Result)
      requires k < |queue|
      modifies this`queue, this`finished, this`busySlots, this`lastFinishedId, this`lastErrorlevel
      ensures Abs() == NotifyAll(RecordEnd(old(Abs()), k, result), old(queue)[k].notifyTo, result.errorlevel)
    {
      ghost var s := Abs();
      var j := queue[k];
      if j.state.Running? {
        busySlots := busySlots - j.numSlots;
      }
      queue := queue[k := j.(state := if result.skipped then Skipped else Finished, errorlevel := result.errorlevel)];
      lastFinishedId := j.id;
      assert Abs().(lastErrorlevel := result.errorlevel) == RecordEnd(s, k, result);
      NotifyErrorlevel(j.notifyTo, result.errorlevel);
    }

    /** job_finished. */
    method JobFinished(result: Result, id: int) returns (ok: bool)
      requires Valid()
      modifies this, devices.used
      ensures ok <==> JobSpec.JobFinished(old(Abs()), result, id).Some?
      ensures ok ==> Valid() && Abs() == JobSpec.JobFinished(old(Abs()), result, id).value
    {
      if busySlots <= 0 {
        return false;
      }
      var k := FindJob(queue, id);
      if k < 0 {
        return false;
      }
      ok := true;
      if build.Gpu? {
        ok := devices.Broadcast(queue[k].gpuIds, false);
      }
      if ok {
        RecordEndOf(k, result);
        ok := RetireJob(k);
      }
    }

    /** s_clear_finished. */
    method ClearFinished()
      modifies this`finished
      ensures Abs() == old(Abs()).(finished := [])
    {
      finished := [];
    }

    /** s_removejob. */
    method RemoveJobQuietly(id: int) returns (ok: bool)
      modifies this`queue
      ensures ok <==> Unlink(old(Abs()), id).Some?
      ensures ok ==> Abs() == Unlink(old(Abs()), id).value
    {
      var k := FindJob(queue, id);
      ok := k >= 0;
      if ok {
        queue := RemoveAt(queue, k);
      }
    }

    // ---- waiting clients ----

    lemma SocketUnique(w: seq<Waiter>, socket: int, k: int)
      requires -1 <= k < |w| && (k >= 0 ==> w[k].socket == socket)
      requires forall i :: 0 <= i < |w| && (k < 0 || i < k) ==> w[i].socket != socket
      ensures FindSocket(w, socket) == k
    {
    }

    /** s_remove_notification. */
    method RemoveNotification(socket: int)
      modifies this`waiters
      ensures Abs() == old(Abs()).(waiters := JobSpec.RemoveNotification(old(waiters), socket))
    {
      var k := 0;
      while k < |waiters| && waiters[k].socket != socket
        invariant 0 <= k <= |waiters|
        invariant forall i :: 0 <= i < k ==> waiters[i].socket != socket
      {
        k := k + 1;
      }
      if k < |waiters| {
        SocketUnique(waiters, socket, k);
        waiters := RemoveAt(waiters, k);
      } else {
        SocketUnique(waiters, socket, -1);
      }
    }

    /** The turn of check_notify_list for a waiter whose job has ended. */
    method AnswerWaiter(w: Waiter, j: Job) returns (ok: bool)
      modifies this`sent, this`waiters, this`finished
      ensures ok <==> JobSpec.AnswerWaiter(old(Abs()), w, j).Some?
      ensures ok ==> Abs() == JobSpec.AnswerWaiter(old(Abs()), w, j).value
    {
      Send(WaitJobOk(w.socket, j.errorlevel));
      RemoveNotification(w.socket);
      var awaited := InNotifyList(waiters, j.id);
      ok := true;
      if !awaited && !j.keep {
        // destroy_finished_job: the job at hand is the one get_job found
        var k := FindJob(queue, j.id);
        var f := FindJob(finished, j.id);
        ok := k < 0 && f >= 0;
        if ok {
          finished := RemoveAt(finished, f);
        }
      }
    }

    /** get_job. */
    method GetJobById(id: int) returns (j: Option<Job>)
      ensures j == GetJob(Abs(), id)
    {
      var k := FindJob(queue, id);
      if k >= 0 {
        return Some(queue[k]);
      }
      var f := FindJob(finished, id);
      if f >= 0 {
        return Some(finished[f]);
      }
      return None;
    }

    /** check_notify_list. */
    method CheckNotifyList(id: int) returns (ok: bool)
      modifies this`sent, this`waiters, this`finished
      ensures ok <==> CheckNotify(old(Abs()), id).Some?
      ensures ok ==> Abs() == CheckNotify(old(Abs()), id).value
    {
      ghost var s := Abs();
      var i := 0;
      while i < |waiters|
        invariant 0 <= i
        invariant CheckNotifyFrom(s, id, 0) == CheckNotifyFrom(Abs(), id, i)
        decreases |waiters| - i
      {
        if waiters[i].jobid == id {
          var j := GetJobById(id);
          if j.None? {
            return false;
          }
          if IsDone(j.value.state) {
            ok := AnswerWaiter(waiters[i], j.value);
            if !ok {
              return;
            }
          } else {
            i := i + 1;
          }
        } else {
          i := i + 1;
        }
      }
      ok := true;
    }

    /** The answer to a client that waits for the job `j`. */
    method Wait(socket: int, j: Job)
      modifies this`sent, this`waiters
      ensures Abs() == WaitFor(old(Abs()), socket, j)
    {
      if IsDone(j.state) {
        sent := sent + [WaitJobOk(socket, j.errorlevel)];
      } else {
        waiters := waiters + [Waiter(socket, j.id)];
      }
    }

    /** s_wait_job. */
    method WaitJob(socket: int, id: int)
      modifies this`sent, this`waiters
      ensures Abs() == JobSpec.WaitJob(old(Abs()), socket, id)
    {
      if id == -1 {
        if |queue| > 0 {
          Wait(socket, queue[|queue| - 1]);
        } else if |finished| > 0 {
          Wait(socket, finished[|finished| - 1]);
        } else {
          Send(Line(socket));
        }
      } else {
        var j := GetJobById(id);
        match j
        case Some(found) => Wait(socket, found);
        case None => Send(Line(socket));
      }
    }

    /** s_wait_running_job. */
    method WaitRunningJob(socket: int, id: int) returns (ok: bool)
      modifies this`sent, this`waiters
      ensures ok <==> JobSpec.WaitRunningJob(old(Abs()), socket, id).Some?
      ensures ok ==> Abs() == JobSpec.WaitRunningJob(old(Abs()), socket, id).value
    {
      ok := true;
      if id != -1 {
        WaitJob(socket, id);
      } else if busySlots > 0 {
        if |queue| == 0 {
          return false;
        }
        Wait(socket, queue[0]);
      } else if |finished| == 0 {
        Send(Line(socket));
      } else {
        Wait(socket, finished[|finished| - 1]);
      }
    }

    // ---- s_remove_job ----

    method RemoveQueued(socket: int, k: nat) returns (ok: bool)
      requires k < |queue|
      modifies this`queue, this`finished, this`waiters, this`sent, this`lastErrorlevel
      ensures ok <==> RemoveQueuedAt(old(Abs()), socket, k).Some?
      ensures ok ==> Abs() == RemoveQueuedAt(old(Abs()), socket, k).value
    {
      var ids := queue[k].notifyTo;
      queue := queue[k := Dropped(queue[k])];
      NotifyErrorlevel(ids, -1);
      ok := CheckNotifyList(0);
      if ok {
        queue := RemoveAt(queue, k);
        Send(RemoveJobOk(socket));
      }
    }

    method RemoveFinished(socket: int, k: nat) returns (ok: bool)
      requires k < |finished|
      modifies this`queue, this`finished, this`waiters, this`sent, this`lastErrorlevel
      ensures ok <==> RemoveFinishedAt(old(Abs()), socket, k).Some?
      ensures ok ==> Abs() == RemoveFinishedAt(old(Abs()), socket, k).value
    {
      var ids, id := finished[k].notifyTo, finished[k].id;
      var before := if k > 0 then finished[k - 1].id else -1;
      finished := finished[k := Dropped(finished[k])];
      NotifyErrorlevel(ids, -1);
      ok := CheckNotifyList(0);
      if ok {
        var f := FindJob(finished, id);
        if f < 0 || (0 < f < k && before == 0) {
          return false;
        }
        finished := RemoveAt(finished, f);
        Send(RemoveJobOk(socket));
      }
    }

    /** s_remove_job. */
    method RemoveJob(socket: int, id: int) returns (ok: bool, removed: int)
      modifies this`queue, this`finished, this`waiters, this`sent, this`lastErrorlevel
      ensures ok <==> JobSpec.RemoveJob(old(Abs()), socket, id).Some?
      ensures ok ==> (Abs(), removed) == JobSpec.RemoveJob(old(Abs()), socket, id).value
    {
      removed := -1;
      ok := true;
      var k, f := |queue| - 1, |finished| - 1;
      if id != -1 {
        k := FindJob(queue, id);
        f := FindJob(finished, id);
      }
      if k >= 0 {
        if k == 0 || queue[k].state.Running? {
          Send(Line(socket));
        } else {
          removed := queue[k].id;
          ok := RemoveQueued(socket, k);
        }
      } else if f >= 0 {
        removed := finished[f].id;
        ok := RemoveFinished(socket, f);
      } else {
        Send(Line(socket));
      }
    }

    // ---- order of the queue ----

    /** s_move_urgent. */
    method MoveUrgent(socket: int, id: int) returns (ok: bool)
      modifies this`queue, this`sent
      ensures ok <==> JobSpec.MoveUrgent(old(Abs()), socket, id).Some?
      ensures ok ==> Abs() == JobSpec.MoveUrgent(old(Abs()), socket, id).value
    {
      ok := true;
      var k := |queue| - 1;
      if id != -1 {
        k := FindJob(queue, id);
      }
      if k < 0 || |queue| == 1 {
        Send(Line(socket));
      } else if k == 0 {
        // nothing points to the head of the queue
        ok := false;
      } else {
        var p := queue[k];
        queue := RemoveAt(queue, k);
        queue := queue[..1] + [p] + queue[1..];
        assert queue == MoveSecond(old(queue), k);
        Send(UrgentOk(socket));
      }
    }

    /** s_swap_jobs. */
    method SwapJobs(socket: int, id1: int, id2: int)
      modifies this`queue, this`sent
      ensures Abs() == JobSpec.SwapJobs(old(Abs()), socket, id1, id2)
    {
      var a := FindJob(queue, id1);
      var b := FindJob(queue, id2);
      if a <= 0 || b <= 0 {
        Send(Line(socket));
      } else {
        var p1, p2 := queue[a], queue[b];
        queue := queue[a := p2];
        queue := queue[b := p1];
        Send(SwapJobsOk(socket));
      }
    }

    // ---- next_run_job ----

    /** get_job on a dependency, and the test on the state it finds. */
    method IsBlocked(j: Job) returns (blocked: bool)
      ensures blocked <==> Blocked(Abs(), j)
    {
      for i := 0 to |j.dependOn|
        invariant forall m :: 0 <= m < i ==> !DependencyUnfinished(Abs(), j.dependOn[m])
      {
        var d := GetJobById(j.dependOn[i]);
        if d.Some? && IsUnfinished(d.value.state) {
          assert DependencyUnfinished(Abs(), j.dependOn[i]);
          return true;
        }
      }
      return false;
    }

    /** The device test: the free list is shuffled in place and the first devices nobody claimed are taken. */
    method DeviceTest(j: Job, list: array<int>, draws: seq<nat>) returns (m: Option<Job>)
      requires Valid() && build.Gpu? && InRange(list[..], build.total)
      requires |draws| >= list.Length && forall i :: 0 <= i < |draws| ==> draws[i] <= RAND_MAX
      modifies list
      ensures multiset(list[..]) == multiset(old(list[..]))
      ensures m == TentativeWith(Abs(), j, list[..], false)
    {
      if j.numGpus == 0 || !j.waitFreeGpus {
        return Some(j);
      }
      if list.Length < j.numGpus {
        UnclaimedShort(list[..], devices.Claimed());
        return None;
      }
      Shuffle(list, draws);
      StillInRange(old(list[..]), list[..], build.total);
      var ids := TakeDevices(list, j.numGpus);
      m := if |ids| < j.numGpus then None else Some(j.(gpuIds := ids));
    }

    /** The loop that collects devices nobody claimed until there are enough. */
    method TakeDevices(list: array<int>, n: nat) returns (ids: seq<int>)
      requires InRange(list[..], devices.used.Length)
      ensures var free := Unclaimed(list[..], devices.Claimed());
              if |free| < n then |ids| < n else ids == free[..n]
    {
      ids := [];
      var j := 0;
      while |ids| < n && j < list.Length
        invariant 0 <= j <= list.Length && |ids| <= n
        invariant ids == Unclaimed(list[..j], devices.Claimed())
      {
        assert list[..j + 1][..j] == list[..j];
        assert list[..][j] == list[j];
        var inUse := devices.IsInUse(list[j]);
        if !inUse {
          ids := ids + [list[j]];
        }
        j := j + 1;
      }
      assert list[..][..j] == list[..j];
      UnclaimedPrefix(list[..], j, devices.Claimed());
      ghost var free := Unclaimed(list[..], devices.Claimed());
      if j == list.Length { assert list[..j] == list[..]; }
      assert ids == free[..|ids|];
    }

    /** What the device test makes of the job at position `k`; on a CPU build there is none. */
    method TestDevices(k: nat, list: array<int>, draws: seq<nat>, failed: bool) returns (m: Option<Job>)
      requires Valid() && k < |queue| && (build.Gpu? && !failed ==> InRange(list[..], build.total))
      requires !failed ==> |draws| >= list.Length && forall i :: 0 <= i < |draws| ==> draws[i] <= RAND_MAX
      modifies list
      ensures multiset(list[..]) == multiset(old(list[..]))
      ensures IsRunnable(queue[k]) ==> m == TentativeWith(Abs(), queue[k], list[..], failed)
    {
      m := Some(queue[k]);
      if IsRunnable(queue[k]) && build.Gpu? {
        if failed {
          m := None;
        } else {
          m := DeviceTest(queue[k], list, draws);
        }
      }
    }

    /** next_run_job. `list` is what the device query brought, `rand(i, m)` what the draw number `m` at
        position `i` returns; the query the specification speaks of shows the list as it stood at each position. */
    method NextRunJob(list: Option<seq<int>>, rand: (nat, nat) -> nat)
      returns (ok: bool, id: int, ghost query: GpuQuery, ghost k: int)
      requires Valid()
      requires build.Gpu? && list.Some? ==> InRange(list.value, build.total)
      requires forall i, m :: rand(i, m) <= RAND_MAX
      modifies this`queue, this`busySlots, devices.used
      ensures ok <==> JobSpec.NextRunJob(old(Abs()), query).Some?
      ensures ok ==> Valid() && (Abs(), k) == JobSpec.NextRunJob(old(Abs()), query).value
      ensures ok ==> id == if k < 0 then -1 else queue[k].id
      ensures list.None? <==> query.QueryFailed?
      ensures list.Some? ==> forall i :: 0 <= i < |query.orders| ==> multiset(query.orders[i]) == multiset(list.value)
    {
      query, k := QueryOf(list.None?, []), -1;
      ok, id := true, -1;
      if maxSlots - busySlots <= 0 || |queue| == 0 {
        return;
      }
      var hit;
      hit, query := ScanQueue(list, rand);
      k := hit;
      if hit < 0 {
        return;
      }
      busySlots := busySlots + queue[hit].numSlots;
      if build.Gpu? && queue[hit].numGpus != 0 {
        ok := devices.Broadcast(queue[hit].gpuIds, true);
      }
      id := queue[hit].id;
    }

    /** The loop of next_run_job. */
    method ScanQueue(list: Option<seq<int>>, rand: (nat, nat) -> nat) returns (hit: int, ghost query: GpuQuery)
      requires Valid()
      requires build.Gpu? && list.Some? ==> InRange(list.value, build.total)
      requires forall i, m :: rand(i, m) <= RAND_MAX
      modifies this`queue
      ensures (Abs(), hit) == Scan(old(Abs()), 0, query)
      ensures list.None? <==> query.QueryFailed?
      ensures list.Some? ==> forall i :: 0 <= i < |query.orders| ==> multiset(query.orders[i]) == multiset(list.value)
    {
      ghost var s := Abs();
      var items := if list.Some? then list.value else [];
      var a := new int[|items|](i requires 0 <= i < |items| => items[i]);
      assert a[..] == items;
      ghost var orders: seq<seq<int>> := [];
      hit := 0;
      while hit < |queue|
        invariant 0 <= hit <= |queue| == |s.queue| && |orders| == hit
        invariant ScanGoesOn(s, Abs(), hit, orders, list.None?)
        invariant multiset(a[..]) == multiset(items)
        invariant forall i :: 0 <= i < hit ==> multiset(orders[i]) == multiset(items)
      {
        ghost var t := Abs();
        if build.Gpu? && list.Some? { StillInRange(items, a[..], build.total); }
        var taken := ScanJob(hit, a, seq(a.Length, (m: nat) => rand(hit, m)), list.None?);
        if taken {
          ScanHit(s, t, hit, orders, a[..], list.None?, Abs());
          query := QueryOf(list.None?, orders + [a[..]]);
          return;
        }
        ScanTurn(s, t, hit, orders, a[..], list.None?, Abs());
        orders := orders + [a[..]];
        hit := hit + 1;
      }
      query := QueryOf(list.None?, orders);
      hit := -1;
    }

    /** The turn of the loop for the job at position `k`. */
    method ScanJob(k: nat, list: array<int>, draws: seq<nat>, failed: bool) returns (taken: bool)
      requires Valid() && k < |queue| && (build.Gpu? && !failed ==> InRange(list[..], build.total))
      requires !failed ==> |draws| >= list.Length && forall i :: 0 <= i < |draws| ==> draws[i] <= RAND_MAX
      modifies this`queue, list
      ensures multiset(list[..]) == multiset(old(list[..]))
      ensures var s := old(Abs());
              var j := old(queue)[k];
              var m := TentativeWith(s, j, list[..], failed);
              if !IsRunnable(j) || m.None? then Abs() == s && !taken
              else (
                && Abs() == s.(queue := s.queue[k := m.value])
                && (taken <==> !Blocked(Abs(), m.value) && j.numSlots <= s.maxSlots - s.busy))
    {
      taken := false;
      var m := TestDevices(k, list, draws, failed);
      if IsRunnable(queue[k]) && m.Some? {
        queue := queue[k := m.value];
        var blocked := IsBlocked(m.value);
        taken := !blocked && m.value.numSlots <= maxSlots - busySlots;
      }
    }

    lemma StillInRange(a: seq<int>, b: seq<int>, total: nat)
      requires InRange(a, total) && multiset(a) == multiset(b)
      ensures InRange(b, total)
    {
      forall i | 0 <= i < |b| ensures 0 <= b[i] < total {
        assert b[i] in multiset(b);
        assert b[i] in multiset(a);
      }
    }

    lemma {:induction false} UnclaimedShort(list: seq<int>, used: set<int>)
      ensures |Unclaimed(list, used)| <= |list|
    {
      if list == [] {
      } else {
        UnclaimedShort(list[..|list| - 1], used);
      }
    }

    lemma {:induction false} UnclaimedPrefix(list: seq<int>, i: nat, used: set<int>)
      requires i <= |list|
      ensures Unclaimed(list[..i], used) <= Unclaimed(list, used)
    {
      if i < |list| {
        assert list[..|list| - 1][..i] == list[..i];
        UnclaimedPrefix(list[..|list| - 1], i, used);
      } else {
        assert list[..i] == list;
      }
    }

    // ---- smaller steps ----

    /** s_mark_job_running. */
    method MarkJobRunning(id: int) returns (ok: bool)
      modifies this`queue
      ensures ok <==> MarkRunning(old(Abs()), id).Some?
      ensures ok ==> Abs() == MarkRunning(old(Abs()), id).value
    {
      var k := FindJob(queue, id);
      ok := k >= 0;
      if ok {
        queue := queue[k := queue[k].(state := Running)];
      }
    }

    lemma HoldingUnique(q: seq<Job>, k: int)
      requires -1 <= k < |q| && (k >= 0 ==> q[k].state.HoldingClient?)
      requires forall i :: 0 <= i < |q| && (k < 0 || i < k) ==> !q[i].state.HoldingClient?
      ensures FindHolding(q) == k
    {
    }

    /** wake_hold_client. */
    method WakeHoldClient() returns (id: int)
      modifies this`queue
      ensures (Abs(), id) == JobSpec.WakeHoldClient(old(Abs()))
    {
      var k := 0;
      while k < |queue|
        invariant 0 <= k <= |queue|
        invariant forall i :: 0 <= i < k ==> !queue[i].state.HoldingClient?
      {
        if queue[k].state.HoldingClient? {
          HoldingUnique(queue, k);
          id := queue[k].id;
          queue := queue[k := Woken(queue[k])];
          return;
        }
        k := k + 1;
      }
      HoldingUnique(queue, -1);
      return -1;
    }

    /** s_process_runjob_ok. */
    method ProcessRunJobOk(id: int) returns (ok: bool)
      ensures ok <==> RunJobOk(Abs(), id).Some?
    {
      var k := FindJob(queue, id);
      ok := k >= 0 && queue[k].state.Running?;
    }

    /** s_set_max_slots. */
    method SetMaxSlots(n: int)
      modifies this`maxSlots
      ensures Abs() == JobSpec.SetMaxSlots(old(Abs()), n)
    {
      if n > 0 {
        maxSlots := n;
      }
    }
  }
}
