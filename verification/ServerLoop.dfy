/** server.c as a class: the table of jobs.c and the array of connections, which shifts when one
    leaves. Every method is tied to the function of `ServerSpec` or `ServerRounds` it implements;
    `ok` is false where the process ends. */
module ServerLoop {
  import opened JobTypes
  import opened JobSpec
  import opened JobTable
  import opened GpuTable
  import opened ServerSpec
  import opened ServerInvariant
  import opened ServerRounds
  import JobInvariant
  import Ops = JobOperations

  lemma ConnUnique(conns: seq<Conn>, id: int, c: int)
    requires -1 <= c < |conns| && (c >= 0 ==> conns[c].hasJob && conns[c].jobid == id)
    requires forall i :: 0 <= i < |conns| && (c < 0 || i < c) ==> !(conns[i].hasJob && conns[i].jobid == id)
    ensures ConnOf(conns, id) == c
  {
  }

  class Loop {
    const table: Table
    const clients: array<Conn>
    var nconnections: nat

    ghost predicate Valid()
      reads this, table
    {
      table.Valid() && nconnections <= clients.Length
    }

    ghost function Conns(): seq<Conn>
      reads this, table, clients
      requires Valid()
    {
      clients[..nconnections]
    }

    ghost function Abs(): Server
      reads this, table, table.devices.used, clients
      requires Valid()
    {
      Server(table.Abs(), clients[..nconnections], clients.Length)
    }

    constructor (build: Build, maxDescriptors: nat, maxFinished: nat, maxSlots: int)
      requires maxSlots >= 1
      ensures Valid() && fresh(table) && fresh(clients) && fresh(table.devices.used)
      ensures Initial(Abs())
    {
      table := new Table(build, maxDescriptors - 5, maxFinished, maxSlots);
      clients := new Conn[maxDescriptors](_ => Conn(0, false, 0));
      nconnections := 0;
    }

    /** get_conn_of_jobid. */
    method GetConnOfJobid(id: int) returns (c: int)
      requires Valid()
      ensures c == ConnOf(Abs().conns, id)
    {
      c := 0;
      while c < nconnections
        invariant 0 <= c <= nconnections
        invariant forall i :: 0 <= i < c ==> !(clients[i].hasJob && clients[i].jobid == id)
      {
        if clients[c].hasJob && clients[c].jobid == id {
          ConnUnique(clients[..nconnections], id, c);
          return;
        }
        c := c + 1;
      }
      ConnUnique(clients[..nconnections], id, -1);
      c := -1;
    }

    /** The loop of remove_connection: the entries after `index` move down by one. */
    method ShiftDown(index: nat)
      requires Valid() && index < nconnections
      modifies this`nconnections, clients
      ensures Valid() && Abs() == old(Abs()).(conns := RemoveAt(old(Conns()), index))
    {
      ghost var conns := clients[..nconnections];
      var i := index;
      while i < nconnections - 1
        invariant index <= i <= nconnections - 1 && nconnections == |conns|
        invariant forall m :: index <= m < i ==> clients[m] == conns[m + 1]
        invariant forall m :: 0 <= m < nconnections && (m < index || i <= m) ==> clients[m] == conns[m]
      {
        clients[i] := clients[i + 1];
        i := i + 1;
      }
      nconnections := nconnections - 1;
      assert clients[..nconnections] == RemoveAt(conns, index);
    }

    /** remove_connection. */
    method RemoveConnection(index: nat) returns (ok: bool)
      requires Valid() && index < nconnections
      modifies this`nconnections, clients, table`queue
      ensures ok <==> ServerSpec.RemoveConnection(old(Abs()), index).Some?
      ensures ok ==> Valid() && Abs() == ServerSpec.RemoveConnection(old(Abs()), index).value
    {
      ok := true;
      if clients[index].hasJob {
        ok := table.RemoveJobQuietly(clients[index].jobid);
      }
      if ok {
        ShiftDown(index);
      }
    }

    /** job_finished, check_notify_list, and the job taken from its connection. */
    method EndJob(index: nat, result: Result) returns (ok: bool)
      requires Valid() && index < nconnections
      modifies table, table.devices.used, clients
      ensures ok <==> ServerSpec.EndJob(old(Abs()), index, result).Some?
      ensures ok ==> Valid() && Abs() == ServerSpec.EndJob(old(Abs()), index, result).value
    {
      var id := clients[index].jobid;
      ok := table.JobFinished(result, id);
      if ok {
        ok := table.CheckNotifyList(id);
      }
      if ok {
        clients[index] := clients[index].(hasJob := false);
        assert clients[..nconnections] == old(clients[..nconnections])[index := clients[index]];
      }
    }

    /** clean_after_client_disappeared. */
    method CleanAfterClientDisappeared(index: nat) returns (ok: bool)
      requires Valid() && index < nconnections
      modifies this`nconnections, clients, table, table.devices.used
      ensures ok <==> Disappear(old(Abs()), index).Some?
      ensures ok ==> Valid() && Abs() == Disappear(old(Abs()), index).value
    {
      ok := true;
      if clients[index].hasJob {
        ok := EndJob(index, KILLED);
      } else {
        table.RemoveNotification(clients[index].socket);
      }
      if ok {
        ok := RemoveConnection(index);
      }
    }

    /** The NEWJOB case of client_read. */
    method NewJob(index: nat, r: Request) returns (ok: bool)
      requires Valid() && index < nconnections
      modifies this`nconnections, clients, table, table.devices.used
      ensures ok <==> EnqueueFor(old(Abs()), index, r).Some?
      ensures ok ==> Valid() && Abs() == EnqueueFor(old(Abs()), index, r).value
    {
      var socket := clients[index].socket;
      var id;
      ok, id := table.NewJob(r);
      if !ok {
        return;
      }
      clients[index] := Conn(socket, true, id);
      assert clients[..nconnections] == old(clients[..nconnections])[index := clients[index]];
      var k := FindJob(table.queue, id);
      if !(k >= 0 && table.queue[k].state.HoldingClient?) {
        table.Send(NewJobOk(socket, id));
      } else if !r.waitEnqueuing {
        table.Send(NewJobNok(socket, id));
        ok := CleanAfterClientDisappeared(index);
      }
    }

    /** The loop of the REMOVEJOB case. */
    method DropConnections(id: int)
      requires Valid()
      modifies this`nconnections, clients
      ensures Valid() && Abs() == old(Abs()).(conns := DropConns(old(Conns()), id, 0))
    {
      ghost var conns := clients[..nconnections];
      var i := 0;
      while i < nconnections
        invariant 0 <= i && Valid() && Abs() == old(Abs()).(conns := Conns())
        invariant DropConns(conns, id, 0) == DropConns(clients[..nconnections], id, i)
        decreases nconnections - i
      {
        if clients[i].hasJob && clients[i].jobid == id {
          ShiftDown(i);
        }
        i := i + 1;
      }
    }

    /** The REMOVEJOB case of client_read. */
    method RemoveJob(index: nat, id: int) returns (ok: bool)
      requires Valid() && index < nconnections
      modifies this`nconnections, clients, table
      ensures ok <==> ReadMsg(old(Abs()), index, RemoveJobMsg(id)).Some?
      ensures ok ==> Valid() && Abs() == ReadMsg(old(Abs()), index, RemoveJobMsg(id)).value
    {
      var removed;
      ok, removed := table.RemoveJob(clients[index].socket, id);
      if ok && removed != -1 {
        DropConnections(removed);
      }
    }

    /** The cases of client_read that only reach the job table. */
    method ReadForTable(index: nat, m: Msg) returns (ok: bool)
      requires Valid() && index < nconnections
      requires m.RunJobOkMsg? || m.ClearFinished? || m.WaitJobMsg? || m.WaitRunningJobMsg? || m.UrgentMsg?
        || m.SwapJobsMsg? || m.SetMaxSlotsMsg?
      modifies table
      ensures ok <==> ReadMsg(old(Abs()), index, m).Some?
      ensures ok ==> Valid() && Abs() == ReadMsg(old(Abs()), index, m).value
    {
      ok := true;
      var socket := clients[index].socket;
      match m
      case RunJobOkMsg => ok := table.ProcessRunJobOk(clients[index].jobid);
      case ClearFinished => table.ClearFinished();
      case WaitJobMsg(id) => table.WaitJob(socket, id);
      case WaitRunningJobMsg(id) => ok := table.WaitRunningJob(socket, id);
      case UrgentMsg(id) => ok := table.MoveUrgent(socket, id);
      case SwapJobsMsg(id1, id2) => table.SwapJobs(socket, id1, id2);
      case SetMaxSlotsMsg(n) => table.SetMaxSlots(n);
    }

    /** The cases of client_read that answer a question. */
    method ReadQuestion(index: nat, m: Msg) returns (ok: bool)
      requires Valid() && index < nconnections && (m.Query? || m.ClosingQuery? || m.Info? || m.AskOutput?)
      modifies this`nconnections, clients, table
      ensures ok <==> ReadMsg(old(Abs()), index, m).Some?
      ensures ok ==> Valid() && Abs() == ReadMsg(old(Abs()), index, m).value
    {
      if (m.Info? || m.AskOutput?) && m.id == -1 && table.busySlots > 0 && |table.queue| == 0 {
        return false;
      }
      ok := true;
      table.Send(Answer(clients[index].socket));
      if m.ClosingQuery? || m.Info? {
        ok := RemoveConnection(index);
      }
    }

    /** client_read, and the closing of the connection after an unknown message. */
    method ClientRead(index: nat, m: Msg) returns (ok: bool)
      requires Valid() && index < nconnections
      modifies this`nconnections, clients, table, table.devices.used
      ensures ok <==> ReadMsg(old(Abs()), index, m).Some?
      ensures ok ==> Valid() && Abs() == ReadMsg(old(Abs()), index, m).value
    {
      if m.KillServer? {
        ok := true;
      } else if m.Query? || m.ClosingQuery? || m.Info? || m.AskOutput? {
        ok := ReadQuestion(index, m);
      } else if m.NewJobMsg? {
        ok := NewJob(index, m.request);
      } else if m.EndJobMsg? {
        ok := EndJob(index, m.result);
      } else if m.RemoveJobMsg? {
        ok := RemoveJob(index, m.id);
      } else if m.Unknown? || m.EndOfStream? {
        ok := CleanAfterClientDisappeared(index);
      } else {
        ok := ReadForTable(index, m);
      }
    }

    // ---- the launch ----

    /** s_mark_job_running and s_runjob. */
    method StartJob(id: int, ghost k: nat) returns (ok: bool)
      requires Valid() && k < |table.queue| && table.queue[k].id == id && Find(table.queue, id) == k
      modifies table
      ensures ok <==> ServerSpec.StartJob(old(Abs()), k).Some?
      ensures ok ==> Valid() && Abs() == ServerSpec.StartJob(old(Abs()), k).value
    {
      var conn := GetConnOfJobid(id);
      var at := FindJob(table.queue, id);
      var job := table.queue[at];
      ok := table.MarkJobRunning(id);
      ok := ok && conn >= 0;
      if ok {
        table.Send(RunJob(clients[conn].socket, id, job.dependencyErrorlevel, job.gpuIds));
      }
    }

    /** One turn of the loop that wakes held clients. */
    method WakeOne() returns (ok: bool, more: bool)
      requires Valid() && forall i :: 0 <= i < |table.queue| ==> table.queue[i].id >= 0
      modifies table
      ensures more <==> FindHolding(old(table.queue)) >= 0
      ensures !more ==> ok && Valid() && Abs() == old(Abs())
      ensures more ==>
        var s := old(Abs());
        var id := s.jobs.queue[FindHolding(s.jobs.queue)].id;
        var c := ConnOf(s.conns, id);
        && (ok <==> c >= 0)
        && (ok ==> Valid() && Abs() == Send(s.(jobs := WakeHoldClient(s.jobs).0), NewJobOk(s.conns[c].socket, id)))
    {
      var id := table.WakeHoldClient();
      more := id != -1;
      ok := true;
      if more {
        var conn := GetConnOfJobid(id);
        ok := conn >= 0;
        if ok {
          table.Send(NewJobOk(clients[conn].socket, id));
        }
      }
    }

    /** The loop that wakes held clients. */
    method WakeHeld() returns (ok: bool)
      requires Valid() && forall i :: 0 <= i < |table.queue| ==> table.queue[i].id >= 0
      modifies table
      ensures ok <==> WakeAll(old(Abs())).Some?
      ensures ok ==> Valid() && Abs() == WakeAll(old(Abs())).value
    {
      ghost var s := Abs();
      var more := true;
      while more
        invariant Valid() && WakeAll(s) == WakeAll(Abs())
        invariant !more ==> WakeAll(s) == Some(Abs())
        invariant forall i :: 0 <= i < |table.queue| ==> table.queue[i].id >= 0
        decreases Holding(table.queue), more
      {
        ghost var q := table.queue;
        ghost var k := FindHolding(q);
        if k >= 0 { HoldingUpdate(q, k, Woken(q[k])); }
        ok, more := WakeOne();
        if !ok {
          return;
        }
      }
      ok := true;
    }

    /** The launch at the end of a round. */
    method LaunchJob(list: Option<seq<int>>, rand: (nat, nat) -> nat) returns (ok: bool, ghost query: GpuQuery)
      requires Valid() && Core(Abs())
      requires table.build.Gpu? && list.Some? ==> InRange(list.value, table.build.total)
      requires forall i, m :: rand(i, m) <= RAND_MAX
      modifies table, table.devices.used
      ensures ok <==> LaunchOne(old(Abs()), query).Some?
      ensures ok ==> Valid() && Abs() == LaunchOne(old(Abs()), query).value
      ensures list.None? <==> query.QueryFailed?
      ensures list.Some? ==> forall i :: 0 <= i < |query.orders| ==> multiset(query.orders[i]) == multiset(list.value)
    {
      ghost var s := Abs();
      var id;
      ghost var k;
      ok, id, query, k := table.NextRunJob(list, rand);
      if ok {
        Ops.NextRunJobOk(s.jobs, query);
        assert forall i :: 0 <= i < |table.queue| ==> JobInvariant.LiveJob(table.queue[i], table.jobids);
        if id != -1 {
          JobInvariant.FindAt(table.queue, k);
          ok := StartJob(id, k);
          if ok {
            ok := WakeHeld();
          }
        }
      }
    }

    // ---- a round ----

    /** accept, while there is room. */
    method AcceptConnection(socket: int)
      requires Valid()
      modifies this`nconnections, clients
      ensures Valid() && Some(Abs()) == Step(old(Abs()), Accept(socket))
    {
      if nconnections < clients.Length {
        clients[nconnections] := Conn(socket, false, 0);
        nconnections := nconnections + 1;
        assert clients[..nconnections] == old(clients[..nconnections]) + [Conn(socket, false, 0)];
      }
    }

    /** The loop of a round over the connections. */
    method ReadReady(ready: map<int, Msg>) returns (ok: bool)
      requires Valid()
      modifies this`nconnections, clients, table, table.devices.used
      ensures ok <==> ReadAll(old(Abs()), ready, 0).Some?
      ensures ok ==> Valid() && Abs() == ReadAll(old(Abs()), ready, 0).value
    {
      ghost var s := Abs();
      var i := 0;
      while i < nconnections
        invariant 0 <= i && Valid() && ReadAll(s, ready, 0) == ReadAll(Abs(), ready, i)
        decreases nconnections - i
      {
        ghost var t := Abs();
        assert t.conns[i] == clients[i];
        if clients[i].socket in ready {
          var m := ready[clients[i].socket];
          ok := ClientRead(i, m);
          if !ok {
            return;
          }
          ReadShrinks(t, i, m);
        }
        i := i + 1;
      }
      ok := true;
    }

    /** One round of server_loop. At its end the run queue and the connections that hold jobs still
        match, and the slots in use are those of the running jobs. */
    method Round(arrived: Option<int>, ready: map<int, Msg>, list: Option<seq<int>>, rand: (nat, nat) -> nat)
      returns (ok: bool, ghost query: GpuQuery)
      requires Valid() && Core(Abs()) && RoundOk(Abs(), arrived, ready)
      requires table.build.Gpu? && list.Some? ==> InRange(list.value, table.build.total)
      requires forall i, m :: rand(i, m) <= RAND_MAX
      modifies this`nconnections, clients, table, table.devices.used
      ensures ok <==> ServerRounds.Round(old(Abs()), arrived, ready, query).Some?
      ensures ok ==> Valid() && Core(Abs()) && Some(Abs()) == ServerRounds.Round(old(Abs()), arrived, ready, query)
    {
      ghost var s := Abs();
      query := QueryFailed;
      if arrived.Some? {
        AcceptConnection(arrived.value);
      }
      ArriveCore(s, arrived);
      ok := ReadReady(ready);
      if ok {
        ReadAllCore(Arrive(s, arrived), ready, 0);
        ok, query := LaunchJob(list, rand);
        if ok {
          RoundCore(s, arrived, ready, query);
        }
      }
    }
  }
}
