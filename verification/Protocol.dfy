/** What a job client is told over a whole run: one answer to its NEWJOB, then at most one
    RUNJOB, both on its own connection, and no way back from running. */
module Protocol {
  import opened JobTypes
  import opened JobSpec
  import opened JobInvariant
  import opened ServerSpec
  import opened ServerInvariant

  predicate IsMail(m: Sent) { m.NewJobOk? || m.NewJobNok? || m.RunJob? }

  /** The messages about job `id`, in the order they were sent. */
  function Mail(sent: seq<Sent>, id: int): seq<Sent> {
    if sent == [] then []
    else
      var m := sent[|sent| - 1];
      Mail(sent[..|sent| - 1], id) + if IsMail(m) && m.id == id then [m] else []
  }

  /** `b` continues `a` with messages that are no job mail. */
  ghost predicate Quiet(a: seq<Sent>, b: seq<Sent>) {
    |a| <= |b| && b[..|a|] == a && forall i :: |a| <= i < |b| ==> !IsMail(b[i])
  }

  lemma QuietTransitive(a: seq<Sent>, b: seq<Sent>, c: seq<Sent>)
    requires Quiet(a, b) && Quiet(b, c)
    ensures Quiet(a, c)
  {
    assert c[..|a|] == c[..|b|][..|a|];
    forall i | |a| <= i < |c| ensures !IsMail(c[i]) {
      if i < |b| { assert c[i] == c[..|b|][i]; }
    }
  }

  lemma {:induction false} QuietMail(a: seq<Sent>, b: seq<Sent>, id: int)
    requires Quiet(a, b)
    ensures Mail(b, id) == Mail(a, id)
    decreases |b|
  {
    if |a| < |b| {
      var c := b[..|b| - 1];
      assert c[..|a|] == a;
      QuietMail(a, c, id);
    } else {
      assert a == b;
    }
  }

  lemma MailAppend(sent: seq<Sent>, m: Sent, id: int)
    ensures Mail(sent + [m], id) == Mail(sent, id) + if IsMail(m) && m.id == id then [m] else []
  {
    assert (sent + [m])[..|sent|] == sent;
  }

  lemma QuietAppend(a: seq<Sent>, m: Sent)
    requires !IsMail(m)
    ensures Quiet(a, a + [m])
  {
  }

  // ---- how each job stands ----

  function StateOf(q: seq<Job>, id: int): Option<JobState> {
    var k := Find(q, id);
    if k < 0 then None else Some(q[k].state)
  }

  function SocketOf(conns: seq<Conn>, id: int): Option<int> {
    var c := ConnOf(conns, id);
    if c < 0 then None else Some(conns[c].socket)
  }

  /** A finished exchange: nothing, an answer, or an acceptance followed by the order to run. */
  predicate Exchange(m: seq<Sent>, id: int) {
    || m == []
    || (|m| == 1 && (m[0].NewJobOk? || m[0].NewJobNok?) && m[0].id == id)
    || (|m| == 2 && m[0].NewJobOk? && Started(m, m[0].socket, id))
  }

  predicate Started(m: seq<Sent>, socket: int, id: int) {
    |m| == 2 && m[0] == NewJobOk(socket, id) && m[1].RunJob? && m[1].socket == socket && m[1].id == id
  }

  /** The mail of job `id` says how it stands: nothing while its client is held, the acceptance
      while it is queued or allocating, acceptance and order to run while it is running. */
  ghost predicate MailFor(jobs: Jobs, conns: seq<Conn>, id: int) {
    var m := Mail(jobs.sent, id);
    match StateOf(jobs.queue, id)
    case None => Exchange(m, id) && (0 <= id < jobs.nextId || m == [])
    case Some(st) =>
      var socket := SocketOf(conns, id);
      && socket.Some? && !IsDone(st)
      && (st.HoldingClient? ==> m == [])
      && (st.Queued? || st.Allocating? ==> m == [NewJobOk(socket.value, id)])
      && (st.Running? ==> Started(m, socket.value, id))
  }

  ghost predicate MailOk(s: Server) { forall id :: MailFor(s.jobs, s.conns, id) }

  // ---- states and sockets under list changes ----

  lemma FindSame(a: seq<Job>, b: seq<Job>, id: int)
    requires |a| == |b| && forall i :: 0 <= i < |a| ==> a[i].id == b[i].id
    ensures Find(a, id) == Find(b, id)
  {
  }

  lemma StateSame(a: seq<Job>, b: seq<Job>, id: int)
    requires SameJobs(a, b)
    ensures StateOf(a, id) == StateOf(b, id)
  {
    assert forall i :: 0 <= i < |a| ==> SameJob(a[i], b[i]);
    FindSame(a, b, id);
  }

  lemma StateRemove(q: seq<Job>, k: nat, id: int)
    requires k < |q| && Distinct(q)
    ensures StateOf(RemoveAt(q, k), id) == if id == q[k].id then None else StateOf(q, id)
  {
    var r := RemoveAt(q, k);
    RemoveAtElements(q, k);
    IdsRemove(q, k);
    if id == q[k].id {
      assert id !in Ids(r);
    } else {
      var m := Find(q, id);
      if m >= 0 {
        FindAt(r, if m < k then m else m - 1);
      } else {
        assert forall i :: 0 <= i < |r| ==> r[i].id != id;
      }
    }
  }

  lemma StateUpdate(q: seq<Job>, k: nat, j: Job, id: int)
    requires k < |q| && Distinct(q) && j.id == q[k].id
    ensures StateOf(q[k := j], id) == if id == j.id then Some(j.state) else StateOf(q, id)
  {
    FindSame(q, q[k := j], id);
    FindAt(q, k);
  }

  /** Reordering distinct jobs changes nothing here. */
  lemma StatePermuted(a: seq<Job>, b: seq<Job>, id: int)
    requires Distinct(a) && Distinct(b) && Ids(a) == Ids(b) && forall i :: 0 <= i < |b| ==> b[i] in a
    ensures StateOf(a, id) == StateOf(b, id)
  {
    var k := Find(b, id);
    if k >= 0 {
      var m :| 0 <= m < |a| && a[m] == b[k];
      FindAt(a, m);
    } else {
      assert id !in Ids(b);
    }
  }

  lemma SocketRemove(conns: seq<Conn>, i: nat, id: int)
    requires ConnsOk(conns) && i < |conns| && !(conns[i].hasJob && conns[i].jobid == id)
    ensures SocketOf(RemoveAt(conns, i), id) == SocketOf(conns, id)
  {
    var r := RemoveAt(conns, i);
    RemoveAtElements(conns, i);
    var c := ConnOf(conns, id);
    if c >= 0 { assert r[if c < i then c else c - 1] == conns[c]; }
  }

  lemma SocketUpdate(conns: seq<Conn>, i: nat, c: Conn, id: int)
    requires i < |conns| && ConnsOk(conns) && ConnsOk(conns[i := c]) && c.socket == conns[i].socket
    requires (c.hasJob && c.jobid == id) || !(conns[i].hasJob && conns[i].jobid == id)
    ensures SocketOf(conns[i := c], id) == if c.hasJob && c.jobid == id then Some(c.socket) else SocketOf(conns, id)
  {
    var r := conns[i := c];
    var m := ConnOf(conns, id);
    if m >= 0 { assert r[m] == conns[m] || m == i; }
    assert r[i] == c;
  }

  lemma {:induction false} SocketDrop(conns: seq<Conn>, dropped: int, i: nat, id: int)
    requires ConnsOk(conns) && dropped != id
    ensures SocketOf(DropConns(conns, dropped, i), id) == SocketOf(conns, id)
    decreases |conns| - i
  {
    if i >= |conns| {
    } else {
      if conns[i].hasJob && conns[i].jobid == dropped {
        SocketRemove(conns, i, id);
        HeldRemove(conns, i);
        SocketDrop(RemoveAt(conns, i), dropped, i + 1, id);
      } else {
        SocketDrop(conns, dropped, i + 1, id);
      }
    }
  }

  // ---- what the operations send ----

  lemma {:induction false} CheckNotifyQuiet(s: Jobs, id: int, i: nat)
    requires CheckNotifyFrom(s, id, i).Some?
    ensures Quiet(s.sent, CheckNotifyFrom(s, id, i).value.sent)
    decreases |s.waiters| - i
  {
    if i >= |s.waiters| {
    } else {
      if s.waiters[i].jobid != id || !IsDone(GetJob(s, id).value.state) {
        CheckNotifyQuiet(s, id, i + 1);
      } else {
        var t := AnswerWaiter(s, s.waiters[i], GetJob(s, id).value).value;
        CheckNotifyQuiet(t, id, i);
        QuietTransitive(s.sent, t.sent, CheckNotifyFrom(t, id, i).value.sent);
      }
    }
  }

  /** A step that sends no job mail and only takes jobs `gone` out of the queue. */
  lemma MailKept(s: Server, t: Server, gone: int)
    requires MailOk(s) && Quiet(s.jobs.sent, t.jobs.sent) && t.jobs.nextId == s.jobs.nextId
    requires gone in Ids(s.jobs.queue) ==> 0 <= gone < s.jobs.nextId
    requires forall id :: StateOf(t.jobs.queue, id) == if id == gone then None else StateOf(s.jobs.queue, id)
    requires forall id :: id != gone && StateOf(s.jobs.queue, id).Some? ==>
               SocketOf(t.conns, id) == SocketOf(s.conns, id)
    ensures MailOk(t)
  {
    forall id ensures MailFor(t.jobs, t.conns, id) {
      assert MailFor(s.jobs, s.conns, id);
      QuietMail(s.jobs.sent, t.jobs.sent, id);
    }
  }

  lemma MailUnmoved(s: Server, t: Server)
    requires MailOk(s) && Quiet(s.jobs.sent, t.jobs.sent) && t.jobs.nextId == s.jobs.nextId
    requires forall id :: StateOf(t.jobs.queue, id) == StateOf(s.jobs.queue, id)
    requires forall id :: StateOf(s.jobs.queue, id).Some? ==> SocketOf(t.conns, id) == SocketOf(s.conns, id)
    ensures MailOk(t)
  {
    forall id ensures MailFor(t.jobs, t.conns, id) {
      assert MailFor(s.jobs, s.conns, id);
      QuietMail(s.jobs.sent, t.jobs.sent, id);
    }
  }
}
