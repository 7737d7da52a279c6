/** The job client of client.c: what it answers when it is told to run, and that its report is the
    one the failure theorems expect. */
module Client {
  import opened JobTypes
  import opened ServerSpec
  import opened Protocol
  import opened Dependencies
  import opened FailureRuns

  /** What arrives at a client that waits for orders; the stream may also end. */
  datatype Order = RunOrder(lastErrorlevel: int, gpuIds: seq<int>) | OtherOrder

  /** What the client sends. */
  datatype Reply = RunJobOkReply | EndJobReply(result: Result)

  /** The result of a job that was told `lastErrorlevel`: skipped, or what running it gave. */
  function Report(strict: bool, lastErrorlevel: int, run: Result): Result {
    if strict && lastErrorlevel != 0 then Result(-1, true) else Result(run.errorlevel, false)
  }

  /** What a report says: a -W job with dependencies that was told a failure did not run; any other job
      ran, and the errorlevel is that of its command. */
  predicate Faithful(r: Result, strict: bool, lastErrorlevel: int, run: Result) {
    if lastErrorlevel == 0 || !strict then r.errorlevel == run.errorlevel && !r.skipped
    else r.errorlevel == -1 && r.skipped
  }

  /** The position of the first order to run, or the length. */
  function FirstRun(orders: seq<Order>): (k: nat)
    ensures k <= |orders|
    ensures k < |orders| ==> orders[k].RunOrder?
    ensures forall i :: 0 <= i < k ==> orders[i].OtherOrder?
  {
    if orders == [] || orders[0].RunOrder? then 0 else 1 + FirstRun(orders[1..])
  }

  /** c_wait_server_commands, when `run` is what running the command gives. Everything before the first
      order to run is passed over; that order is answered by RUNJOB_OK and ENDJOB, and nothing follows. */
  method WaitServerCommands(orders: seq<Order>, dependOnSize: nat, requireErrorlevel: bool, run: Result)
    returns (errorlevel: int, replies: seq<Reply>)
    ensures FirstRun(orders) == |orders| ==> errorlevel == -1 && replies == []
    ensures FirstRun(orders) < |orders| ==>
              && |replies| == 2 && replies[0] == RunJobOkReply && replies[1].EndJobReply?
              && replies[1].result == Report(dependOnSize > 0 && requireErrorlevel,
                                             orders[FirstRun(orders)].lastErrorlevel, run)
              && errorlevel == replies[1].result.errorlevel
    ensures FirstRun(orders) < |orders| ==>
              Faithful(replies[1].result, dependOnSize > 0 && requireErrorlevel,
                       orders[FirstRun(orders)].lastErrorlevel, run)
  {
    var i := 0;
    while i < |orders|
      invariant 0 <= i <= |orders|
      invariant forall m :: 0 <= m < i ==> orders[m].OtherOrder?
    {
      if orders[i].RunOrder? {
        var result := Result(0, false);
        if dependOnSize > 0 && requireErrorlevel && orders[i].lastErrorlevel != 0 {
          result := Result(-1, true);
          replies := [RunJobOkReply];
        } else {
          result := Result(run.errorlevel, false);
          replies := [RunJobOkReply];
        }
        replies := replies + [EndJobReply(result)];
        FirstRunAt(orders, i);
        return result.errorlevel, replies;
      }
      i := i + 1;
    }
    FirstRunAt(orders, i);
    return -1, [];
  }

  lemma FirstRunAt(orders: seq<Order>, i: nat)
    requires i <= |orders| && (i < |orders| ==> orders[i].RunOrder?)
    requires forall m :: 0 <= m < i ==> orders[m].OtherOrder?
    ensures FirstRun(orders) == i
  {
  }

  lemma {:induction false} RunJobInMail(sent: seq<Sent>, a: nat)
    requires a < |sent| && IsMail(sent[a])
    ensures sent[a] in Mail(sent, sent[a].id)
  {
    if a == |sent| - 1 {
    } else {
      RunJobInMail(sent[..|sent| - 1], a);
    }
  }

  /** A client that reports as c_wait_server_commands does keeps to what the failure theorems assume: a
      job is told to run only once, so its report is about that order. What the history then says of a
      job that ran is what its command gave. */
  lemma ReportIsHonest(s: Server, h: History, i: nat, r: Result, run: Result, strict: int -> bool)
    requires MailOk(s) && i < |s.conns| && s.conns[i].hasJob
    requires StateOf(s.jobs.queue, s.conns[i].jobid) == Some(Running)
    requires |Mail(s.jobs.sent, s.conns[i].jobid)| == 2 && Mail(s.jobs.sent, s.conns[i].jobid)[1].RunJob? ==>
               Faithful(r, strict(s.conns[i].jobid), Mail(s.jobs.sent, s.conns[i].jobid)[1].lastErrorlevel, run)
    ensures var id := s.conns[i].jobid;
            && |Mail(s.jobs.sent, id)| == 2 && Mail(s.jobs.sent, id)[1].RunJob?
            && Honest(s, Read(i, EndJobMsg(r)), strict)
            && HistoryStep(h, s, Read(i, EndJobMsg(r))).ended[id] ==
                 if strict(id) && Mail(s.jobs.sent, id)[1].lastErrorlevel != 0 then Outcome(-1, true, false)
                 else Outcome(run.errorlevel, false, false)
  {
    var id := s.conns[i].jobid;
    assert MailFor(s.jobs, s.conns, id);
    forall a | 0 <= a < |s.jobs.sent| && s.jobs.sent[a].RunJob? && s.jobs.sent[a].id == id
      ensures s.jobs.sent[a] == Mail(s.jobs.sent, id)[1]
    {
      RunJobInMail(s.jobs.sent, a);
    }
  }
}
