/** The rounds of server_loop: the events between two calls of select, in the order the loop takes them. */
module ServerRounds {
  import opened JobTypes
  import opened JobSpec
  import opened ServerSpec
  import opened ServerInvariant

  lemma {:induction false} DropShrinks(conns: seq<Conn>, id: int, i: nat)
    ensures |DropConns(conns, id, i)| <= |conns|
    decreases |conns| - i
  {
    if i >= |conns| {
    } else {
      DropShrinks(if conns[i].hasJob && conns[i].jobid == id then RemoveAt(conns, i) else conns, id, i + 1);
    }
  }

  lemma ReadShrinks(s: Server, i: nat, m: Msg)
    requires i < |s.conns| && ReadMsg(s, i, m).Some?
    ensures |ReadMsg(s, i, m).value.conns| <= |s.conns|
  {
    if m.RemoveJobMsg? {
      var (j, removed) := RemoveJob(s.jobs, s.conns[i].socket, m.id).value;
      DropShrinks(s.conns, removed, 0);
    }
  }

  /** The loop over the connections, from position `i` on; `ready` holds what select found, by
      descriptor. A connection that moves into the place of one that left is not looked at again. */
  function ReadAll(s: Server, ready: map<int, Msg>, i: nat): Option<Server>
    decreases |s.conns| - i
  {
    if i >= |s.conns| then Some(s)
    else if s.conns[i].socket !in ready then ReadAll(s, ready, i + 1)
    else
      var m := ready[s.conns[i].socket];
      var t :- ReadMsg(s, i, m);
      ReadShrinks(s, i, m);
      ReadAll(t, ready, i + 1)
  }

  /** What is read keeps to the rules of `ClientOk`. */
  ghost predicate Behaved(s: Server, ready: map<int, Msg>, i: nat)
    decreases |s.conns| - i
  {
    if i >= |s.conns| then true
    else if s.conns[i].socket !in ready then Behaved(s, ready, i + 1)
    else
      var m := ready[s.conns[i].socket];
      && ClientOk(s, Read(i, m))
      && (ReadMsg(s, i, m).Some? ==>
            (ReadShrinks(s, i, m); Behaved(ReadMsg(s, i, m).value, ready, i + 1)))
  }

  function Arrive(s: Server, arrived: Option<int>): Server {
    if arrived.Some? then Step(s, Accept(arrived.value)).value else s
  }

  /** One round: a new connection if there is one, what was read, then a launch. */
  function Round(s: Server, arrived: Option<int>, ready: map<int, Msg>, query: GpuQuery): Option<Server> {
    var t :- ReadAll(Arrive(s, arrived), ready, 0);
    LaunchOne(t, query)
  }

  ghost predicate RoundOk(s: Server, arrived: Option<int>, ready: map<int, Msg>) {
    && (arrived.Some? ==> ClientOk(s, Accept(arrived.value)))
    && Behaved(Arrive(s, arrived), ready, 0)
  }

  lemma ArriveCore(s: Server, arrived: Option<int>)
    requires Core(s) && (arrived.Some? ==> ClientOk(s, Accept(arrived.value)))
    ensures Core(Arrive(s, arrived))
  {
    if arrived.Some? { StepCore(s, Accept(arrived.value)); }
  }

  lemma {:induction false} ReadAllCore(s: Server, ready: map<int, Msg>, i: nat)
    requires Core(s) && Behaved(s, ready, i) && ReadAll(s, ready, i).Some?
    ensures Core(ReadAll(s, ready, i).value)
    decreases |s.conns| - i
  {
    if i >= |s.conns| {
    } else {
      if s.conns[i].socket !in ready {
        ReadAllCore(s, ready, i + 1);
      } else {
        var m := ready[s.conns[i].socket];
        ReadCore(s, i, m);
        ReadShrinks(s, i, m);
        ReadAllCore(ReadMsg(s, i, m).value, ready, i + 1);
      }
    }
  }

  /** `states` leads from its first state to its last one by the steps `evs`. */
  ghost predicate Leads(states: seq<Server>, evs: seq<Event>) {
    && |states| == |evs| + 1
    && forall i :: 0 <= i < |evs| ==> ClientOk(states[i], evs[i]) && Step(states[i], evs[i]) == Some(states[i + 1])
  }

  lemma LeadsFirst(s: Server, e: Event, states: seq<Server>, evs: seq<Event>)
    requires Leads(states, evs) && ClientOk(s, e) && Step(s, e) == Some(states[0])
    ensures Leads([s] + states, [e] + evs)
  {
    var ss, es := [s] + states, [e] + evs;
    forall i | 0 <= i < |es| ensures ClientOk(ss[i], es[i]) && Step(ss[i], es[i]) == Some(ss[i + 1]) {
      if i > 0 {
        assert ss[i] == states[i - 1] && es[i] == evs[i - 1] && ss[i + 1] == states[i - 1 + 1];
      }
    }
  }

  lemma {:induction false} ReadAllSteps(s: Server, ready: map<int, Msg>, i: nat, query: GpuQuery)
    returns (states: seq<Server>, evs: seq<Event>)
    requires Behaved(s, ready, i) && ReadAll(s, ready, i).Some? && LaunchOne(ReadAll(s, ready, i).value, query).Some?
    ensures Leads(states, evs) && states[0] == s && states[|evs|] == LaunchOne(ReadAll(s, ready, i).value, query).value
    decreases |s.conns| - i
  {
    if i >= |s.conns| {
      states, evs := [s, LaunchOne(s, query).value], [Launch(query)];
    } else if s.conns[i].socket !in ready {
      states, evs := ReadAllSteps(s, ready, i + 1, query);
    } else {
      var m := ready[s.conns[i].socket];
      ReadShrinks(s, i, m);
      var tail, rest := ReadAllSteps(ReadMsg(s, i, m).value, ready, i + 1, query);
      LeadsFirst(s, Read(i, m), tail, rest);
      states, evs := [s] + tail, [Read(i, m)] + rest;
    }
  }

  /** A round is a succession of steps, so what holds at every point of every run holds at every
      return to select. */
  lemma RoundSteps(s: Server, arrived: Option<int>, ready: map<int, Msg>, query: GpuQuery)
    returns (states: seq<Server>, evs: seq<Event>)
    requires RoundOk(s, arrived, ready) && Round(s, arrived, ready, query).Some?
    ensures Leads(states, evs) && states[0] == s && Some(states[|evs|]) == Round(s, arrived, ready, query)
  {
    var t := Arrive(s, arrived);
    states, evs := ReadAllSteps(t, ready, 0, query);
    if arrived.Some? {
      LeadsFirst(s, Accept(arrived.value), states, evs);
      states, evs := [s] + states, [Accept(arrived.value)] + evs;
    }
  }

  /** A run goes on with the steps of a round. */
  lemma RunGoesOn(states: seq<Server>, evs: seq<Event>, more: seq<Server>, es: seq<Event>)
    requires IsRun(states, evs) && Leads(more, es) && more[0] == states[|evs|]
    ensures IsRun(states + more[1..], evs + es)
  {
    var ss, all := states + more[1..], evs + es;
    forall i | 0 <= i < |all| ensures ClientOk(ss[i], all[i]) && Step(ss[i], all[i]) == Some(ss[i + 1]) {
      if i >= |evs| {
        var m := i - |evs|;
        assert ss[i] == more[m] && all[i] == es[m] && ss[i + 1] == more[m + 1];
      } else {
        assert ss[i] == states[i] && all[i] == evs[i] && ss[i + 1] == states[i + 1];
      }
    }
  }

  lemma RoundCore(s: Server, arrived: Option<int>, ready: map<int, Msg>, query: GpuQuery)
    requires Core(s) && RoundOk(s, arrived, ready) && Round(s, arrived, ready, query).Some?
    ensures Core(Round(s, arrived, ready, query).value)
  {
    ArriveCore(s, arrived);
    ReadAllCore(Arrive(s, arrived), ready, 0);
    LaunchCore(ReadAll(Arrive(s, arrived), ready, 0).value, query);
  }
}
