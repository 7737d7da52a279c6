/** How the slot counter moves. */
module Slots {
  import opened JobTypes
  import opened JobSpec
  import opened JobInvariant
  import opened ServerSpec
  import opened ServerInvariant
  import opened ProtocolRuns
  import Ops = JobOperations

  lemma {:induction false} WakeKeepsBusy(s: Server)
    requires WakeAll(s).Some?
    ensures WakeAll(s).value.jobs.busy == s.jobs.busy && WakeAll(s).value.jobs.maxSlots == s.jobs.maxSlots
    decreases Holding(s.jobs.queue)
  {
    var k := FindHolding(s.jobs.queue);
    if k < 0 {
    } else {
      HoldingUpdate(s.jobs.queue, k, Woken(s.jobs.queue[k]));
      WakeKeepsBusy(Send(s.(jobs := WakeHoldClient(s.jobs).0),
                         NewJobOk(s.conns[ConnOf(s.conns, s.jobs.queue[k].id)].socket, s.jobs.queue[k].id)));
    }
  }

  lemma EndLowers(s: Server, i: nat, r: Result)
    requires i < |s.conns| && EndJob(s, i, r).Some?
    ensures EndJob(s, i, r).value.jobs.busy <= s.jobs.busy
    ensures EndJob(s, i, r).value.jobs.maxSlots == s.jobs.maxSlots
  {
  }

  lemma DisappearLowers(s: Server, i: nat)
    requires i < |s.conns| && Disappear(s, i).Some?
    ensures Disappear(s, i).value.jobs.busy <= s.jobs.busy
    ensures Disappear(s, i).value.jobs.maxSlots == s.jobs.maxSlots
  {
    if s.conns[i].hasJob { EndLowers(s, i, KILLED); }
  }

  lemma EnqueueLowers(s: Server, i: nat, r: Request)
    requires Core(s) && i < |s.conns| && EnqueueFor(s, i, r).Some?
    ensures EnqueueFor(s, i, r).value.jobs.busy <= s.jobs.busy
    ensures EnqueueFor(s, i, r).value.jobs.maxSlots == s.jobs.maxSlots
  {
    Ops.NewJobOk(s.jobs, r);
    var id := s.jobs.nextId;
    var jobs := NewJob(s.jobs, r).value;
    var s1 := s.(jobs := jobs, conns := s.conns[i := Conn(s.conns[i].socket, true, id)]);
    var k := Find(jobs.queue, id);
    if k >= 0 && jobs.queue[k].state.HoldingClient? && !r.waitEnqueuing {
      DisappearLowers(Send(s1, NewJobNok(s.conns[i].socket, id)), i);
    }
  }

  lemma RemoveKeepsBusy(s: Jobs, socket: int, id: int)
    requires RemoveJob(s, socket, id).Some?
    ensures var t := RemoveJob(s, socket, id).value.0; t.busy == s.busy && t.maxSlots == s.maxSlots
  {
  }

  lemma ReadBusy(s: Server, i: nat, m: Msg)
    requires Core(s) && i < |s.conns| && ClientOk(s, Read(i, m)) && ReadMsg(s, i, m).Some?
    ensures var t := ReadMsg(s, i, m).value;
            && t.jobs.busy <= s.jobs.busy
            && (t.jobs.maxSlots != s.jobs.maxSlots ==>
                  m.SetMaxSlotsMsg? && t.jobs.maxSlots == m.slots && t.jobs.busy == s.jobs.busy)
  {
    var t := ReadMsg(s, i, m).value;
    if Harmless(m) {
      HarmlessFrame(s, i, m);
    } else if m.ClosingQuery? || m.Info? {
      ClosingFrame(s, i, m);
    } else {
      match m
      case NewJobMsg(r) => EnqueueLowers(s, i, r);
      case EndJobMsg(r) => EndLowers(s, i, r);
      case RemoveJobMsg(id) => RemoveKeepsBusy(s.jobs, s.conns[i].socket, id);
      case UrgentMsg(_) =>
      case SwapJobsMsg(_, _) =>
      case Unknown => DisappearLowers(s, i);
      case EndOfStream => DisappearLowers(s, i);
    }
  }

  /** Only a launch raises the counter, and never beyond the limit: while the counter is above
      the limit it cannot grow. It comes to be above only by a lowering of the limit itself. */
  lemma BusyMoves(s: Server, e: Event)
    requires Core(s) && ClientOk(s, e) && Step(s, e).Some?
    ensures var t := Step(s, e).value;
            && (t.jobs.busy > s.jobs.busy ==> e.Launch? && t.jobs.busy <= t.jobs.maxSlots)
            && (t.jobs.maxSlots != s.jobs.maxSlots ==>
                  e.Read? && e.msg.SetMaxSlotsMsg? && t.jobs.maxSlots == e.msg.slots && t.jobs.busy == s.jobs.busy)
  {
    match e
    case Accept(_) =>
    case Launch(query) =>
      Ops.NextRunJobOk(s.jobs, query);
      var (jobs, k) := NextRunJob(s.jobs, query).value;
      if k >= 0 { WakeKeepsBusy(StartJob(s.(jobs := jobs), k).value); }
    case Read(i, m) => if i < |s.conns| { ReadBusy(s, i, m); }
  }

  /** The event lowers the slot limit. */
  predicate Trims(s: Server, e: Event) { e.Read? && e.msg.SetMaxSlotsMsg? && 0 < e.msg.slots < s.jobs.maxSlots }

  /** Without trims the running jobs never take more slots than there are. */
  lemma {:induction false} RunWithoutTrim(states: seq<Server>, evs: seq<Event>, n: nat)
    requires IsRun(states, evs) && n < |states|
    requires forall i :: 0 <= i < |evs| ==> !Trims(states[i], evs[i])
    ensures RunSlots(states[n].jobs.queue) == states[n].jobs.busy <= states[n].jobs.maxSlots
  {
    RunCore(states, evs, n);
    if n == 0 {
    } else {
      RunWithoutTrim(states, evs, n - 1);
      RunCore(states, evs, n - 1);
      assert ClientOk(states[n - 1], evs[n - 1]) && Step(states[n - 1], evs[n - 1]) == Some(states[n - 1 + 1]);
      BusyMoves(states[n - 1], evs[n - 1]);
      TrimOnly(states[n - 1], evs[n - 1]);
    }
  }

  lemma TrimOnly(s: Server, e: Event)
    requires Core(s) && ClientOk(s, e) && Step(s, e).Some? && !Trims(s, e)
    ensures Step(s, e).value.jobs.maxSlots >= s.jobs.maxSlots
  {
    BusyMoves(s, e);
    StepCore(s, e);
  }

  // ---- the slot limit ----

  /** The limit set last: by the latest request that reached the server and was positive. */
  function Limit(states: seq<Server>, evs: seq<Event>, n: nat): int
    requires n <= |evs| < |states|
  {
    if n == 0 then states[0].jobs.maxSlots
    else
      match evs[n - 1]
      case Read(i, SetMaxSlotsMsg(slots)) =>
        if i < |states[n - 1].conns| && slots > 0 then slots else Limit(states, evs, n - 1)
      case _ => Limit(states, evs, n - 1)
  }

  lemma SetsLimit(s: Server, i: nat, slots: int)
    requires i < |s.conns|
    ensures Step(s, Read(i, SetMaxSlotsMsg(slots))) ==
              Some(if slots > 0 then s.(jobs := s.jobs.(maxSlots := slots)) else s)
  {
  }

  /** At every point of every run the limit is the one that was asked for last. */
  lemma {:induction false} RunLimit(states: seq<Server>, evs: seq<Event>, n: nat)
    requires IsRun(states, evs) && n < |states|
    ensures states[n].jobs.maxSlots == Limit(states, evs, n)
  {
    if n == 0 {
    } else {
      RunLimit(states, evs, n - 1);
      RunCore(states, evs, n - 1);
      LimitMoves(states, evs, n - 1);
    }
  }

  lemma LimitMoves(states: seq<Server>, evs: seq<Event>, n: nat)
    requires IsRun(states, evs) && n < |evs| && Core(states[n]) && states[n].jobs.maxSlots == Limit(states, evs, n)
    ensures states[n + 1].jobs.maxSlots == Limit(states, evs, n + 1)
  {
    assert ClientOk(states[n], evs[n]) && Step(states[n], evs[n]) == Some(states[n + 1]);
    match evs[n]
    case Read(i, SetMaxSlotsMsg(slots)) => if i < |states[n].conns| { SetsLimit(states[n], i, slots); }
    case _ => BusyMoves(states[n], evs[n]);
  }
}
