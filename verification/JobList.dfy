/** The links of jobs.c: the run queue and the finished list are chains of `Node`s, the
    notification list is a chain of `WaitNode`s. What the file does to `next` fields and list
    heads amounts to operations on the sequences of nodes; no node is ever in a chain twice. */
module JobList {
  import opened JobTypes
  import opened JobSpec

  class Node {
    var next: Node?
    const job: Job

    constructor (job: Job)
      ensures this.job == job && this.next == null
    {
      this.job := job;
      this.next := null;
    }
  }

  class WaitNode {
    var next: WaitNode?
    const waiter: Waiter

    constructor (waiter: Waiter)
      ensures this.waiter == waiter && this.next == null
    {
      this.waiter := waiter;
      this.next := null;
    }
  }

  /** The nodes reached from `head` are those of `q`, in this order, and no node comes twice. */
  ghost predicate Chain(head: Node?, q: seq<Node>)
    reads q
  {
    ChainBut(head, q, |q|)
  }

  /** A chain in which the link out of the node at position `k` may have been changed. */
  ghost predicate ChainBut(head: Node?, q: seq<Node>, k: nat)
    reads q
  {
    && head == (if q == [] then null else q[0])
    && (forall i {:trigger q[i].next} :: 0 <= i < |q| && i != k ==> q[i].next == if i + 1 < |q| then q[i + 1] else null)
    && (forall i, j :: 0 <= i < j < |q| ==> q[i] != q[j])
  }

  ghost predicate WaitChain(head: WaitNode?, q: seq<WaitNode>)
    reads q
  {
    && head == (if q == [] then null else q[0])
    && (forall i {:trigger q[i].next} :: 0 <= i < |q| ==> q[i].next == if i + 1 < |q| then q[i + 1] else null)
    && (forall i, j :: 0 <= i < j < |q| ==> q[i] != q[j])
  }

  /** The two chains share no node. */
  ghost predicate Apart(q: seq<Node>, f: seq<Node>) {
    forall i, j :: 0 <= i < |q| && 0 <= j < |f| ==> q[i] != f[j]
  }

  // ---- what the chains hold ----

  /** The jobs of the nodes, in order. */
  ghost function JobsOf(q: seq<Node>): (jobs: seq<Job>) { seq(|q|, i requires 0 <= i < |q| => q[i].job) }

  ghost function WaitersOf(q: seq<WaitNode>): seq<Waiter> { seq(|q|, i requires 0 <= i < |q| => q[i].waiter) }

  lemma JobsRemoved(q: seq<Node>, k: nat)
    requires k < |q|
    ensures JobsOf(RemoveAt(q, k)) == RemoveAt(JobsOf(q), k)
  {
  }

  lemma JobsMoved(q: seq<Node>, k: nat)
    requires 0 < k < |q|
    ensures JobsOf(MoveSecond(q, k)) == MoveSecond(JobsOf(q), k)
  {
  }

  lemma FoundAt(q: seq<Job>, id: int, k: int)
    requires -1 <= k < |q| && (k >= 0 ==> q[k].id == id)
    requires forall i :: 0 <= i < |q| && (k < 0 || i < k) ==> q[i].id != id
    ensures Find(q, id) == k
  {
  }

  lemma WaiterAt(w: seq<Waiter>, socket: int, k: int)
    requires -1 <= k < |w| && (k >= 0 ==> w[k].socket == socket)
    requires forall i :: 0 <= i < |w| && (k < 0 || i < k) ==> w[i].socket != socket
    ensures RemoveNotification(w, socket) == if k < 0 then w else RemoveAt(w, k)
  {
  }

  // ---- walking ----

  /** findjob and find_finished_job: the first node with that id, or null. */
  method FindNode(head: Node?, id: int, ghost q: seq<Node>) returns (p: Node?, ghost k: int)
    requires Chain(head, q)
    ensures k == Find(JobsOf(q), id)
    ensures p == if Find(JobsOf(q), id) < 0 then null else q[Find(JobsOf(q), id)]
  {
    p := head;
    k := 0;
    while p != null
      invariant 0 <= k <= |q| && p == if k < |q| then q[k] else null
      invariant forall i :: 0 <= i < k ==> q[i].job.id != id
      decreases |q| - k
    {
      if p.job.id == id {
        FoundAt(JobsOf(q), id, k);
        return;
      }
      p := p.next;
      k := k + 1;
    }
    k := -1;
    FoundAt(JobsOf(q), id, -1);
  }

  /** find_previous_job: the node whose `next` is `final`. */
  method FindPrevious(head: Node?, final: Node, ghost q: seq<Node>, ghost k: nat) returns (p: Node?)
    requires Chain(head, q) && k < |q| && q[k] == final
    ensures p == if k == 0 then null else q[k - 1]
  {
    p := head;
    ghost var m := 0;
    while p != null
      invariant 0 <= m <= |q| && p == if m < |q| then q[m] else null
      invariant k == 0 || m < k
      decreases |q| - m
    {
      assert q[m].next == if m + 1 < |q| then q[m + 1] else null;
      if p.next == final {
        return;
      }
      p := p.next;
      m := m + 1;
    }
  }

  // ---- the run queue ----

  /** newjobptr: a node is put at the end. */
  method AppendNode(head: Node?, p: Node, ghost q: seq<Node>) returns (r: Node)
    requires Chain(head, q) && p !in q && p.next == null
    modifies q
    ensures Chain(r, q + [p])
  {
    if head == null {
      return p;
    }
    var last: Node := head;
    ghost var k := 0;
    while last.next != null
      invariant 0 <= k < |q| && last == q[k] && last.next == if k + 1 < |q| then q[k + 1] else null
      decreases |q| - k
    {
      last := last.next;
      k := k + 1;
    }
    last.next := p;
    r := head;
  }

  /** The node at position `k` is taken out of a chain: `before` points to it, `newnext` is what it pointed to. */
  method UnlinkNode(head: Node?, before: Node?, newnext: Node?, ghost q: seq<Node>, ghost k: nat) returns (r: Node?)
    requires k < |q| && ChainBut(head, q, k)
    requires before == if k == 0 then null else q[k - 1]
    requires newnext == if k + 1 < |q| then q[k + 1] else null
    modifies if before == null then {} else {before}
    ensures Chain(r, RemoveAt(q, k))
  {
    RemoveAtElements(q, k);
    if before == null {
      r := newnext;
    } else {
      before.next := newnext;
      r := head;
    }
  }

  /** s_removejob: the node with that id is unlinked, or `ok` is false when there is none. */
  method RemoveNode(head: Node?, id: int, ghost q: seq<Node>, ghost s: Jobs)
    returns (ok: bool, r: Node?, ghost left: seq<Node>)
    requires Chain(head, q) && s.queue == JobsOf(q)
    modifies q
    ensures ok <==> Unlink(s, id).Some?
    ensures ok ==> Chain(r, left) && Unlink(s, id) == Some(s.(queue := JobsOf(left)))
  {
    ghost var k;
    var p;
    p, k := FindNode(head, id, q);
    if p == null {
      return false, head, q;
    }
    var before := FindPrevious(head, p, q, k);
    r := UnlinkNode(head, before, p.next, q, k);
    left := RemoveAt(q, k);
    JobsRemoved(q, k);
    ok := true;
  }

  /** s_move_urgent on a node that is not the head: it becomes the second one. */
  method MoveUrgentNode(head: Node, p: Node, ghost q: seq<Node>, ghost k: nat)
    requires Chain(head, q) && 0 < k < |q| && q[k] == p
    modifies q
    ensures Chain(head, MoveSecond(q, k))
  {
    var before := FindPrevious(head, p, q, k);
    ghost var r := MoveSecond(q, k);
    assert forall i :: 0 <= i < |q| ==> r[i] == q[if i == 0 || i > k then i else if i == 1 then k else i - 1];
    before.next := p.next;
    p.next := head.next;
    head.next := p;
  }

  /** s_swap_jobs on two nodes that are not the head; they may be neighbours, or the same. */
  method SwapNodes(head: Node, p1: Node, p2: Node, ghost q: seq<Node>, ghost a: nat, ghost b: nat)
    requires Chain(head, q) && 0 < a < |q| && 0 < b < |q| && q[a] == p1 && q[b] == p2
    modifies q
    ensures Chain(head, q[a := q[b]][b := q[a]])
  {
    var before1 := FindPrevious(head, p1, q, a);
    var before2 := FindPrevious(head, p2, q, b);
    before1.next := p2;
    before2.next := p1;
    var tmp := p1.next;
    p1.next := p2.next;
    p2.next := tmp;
  }

  /** The last node of a chain that is not empty. */
  method LastNode(head: Node, ghost q: seq<Node>) returns (p: Node)
    requires Chain(head, q)
    ensures p == q[|q| - 1]
  {
    p := head;
    ghost var k := 0;
    while p.next != null
      invariant 0 <= k < |q| && p == q[k] && p.next == if k + 1 < |q| then q[k + 1] else null
      decreases |q| - k
    {
      p := p.next;
      k := k + 1;
    }
  }

  /** The node s_move_urgent speaks of: the one with the id, or the last one for -1. */
  method UrgedNode(head: Node?, id: int, ghost q: seq<Node>) returns (p: Node?, ghost k: int)
    requires Chain(head, q)
    ensures k == if id == -1 then |q| - 1 else Find(JobsOf(q), id)
    ensures var place := if id == -1 then |q| - 1 else Find(JobsOf(q), id);
            p == if place < 0 then null else q[place]
  {
    p, k := null, |q| - 1;
    if id != -1 {
      p, k := FindNode(head, id, q);
    } else if head != null {
      p := LastNode(head, q);
    }
  }

  /** s_move_urgent as a whole: `ok` is false when it follows a null pointer, `urged` tells which answer is sent. */
  method UrgeNode(head: Node?, id: int, ghost q: seq<Node>, ghost s: Jobs, ghost socket: int)
    returns (ok: bool, urged: bool, ghost r: seq<Node>)
    requires Chain(head, q) && s.queue == JobsOf(q)
    modifies q
    ensures ok <==> MoveUrgent(s, socket, id).Some?
    ensures ok ==> Chain(head, r) && MoveUrgent(s, socket, id) == Some(Urged(s, socket, JobsOf(r), urged))
  {
    r, urged := q, false;
    ghost var k;
    var p;
    p, k := UrgedNode(head, id, q);
    if p == null {
      return true, false, r;
    }
    assert head.next == if 1 < |q| then q[1] else null by { assert q[0].next == if 1 < |q| then q[1] else null; }
    if head.next == null {
      return true, false, r;
    }
    if p == head {
      // nothing points to the head, and its predecessor is written to
      return false, false, r;
    }
    MoveUrgentNode(head, p, q, k);
    r := MoveSecond(q, k);
    JobsMoved(q, k);
    ok, urged := true, true;
  }

  /** The state with that queue, and the answer sent. */
  ghost function Urged(s: Jobs, socket: int, queue: seq<Job>, urged: bool): Jobs {
    s.(queue := queue, sent := s.sent + [if urged then UrgentOk(socket) else Line(socket)])
  }

  /** s_swap_jobs as a whole. */
  method SwapIds(head: Node?, id1: int, id2: int, ghost q: seq<Node>, ghost s: Jobs, ghost socket: int)
    returns (swapped: bool, ghost r: seq<Node>)
    requires Chain(head, q) && s.queue == JobsOf(q)
    modifies q
    ensures Chain(head, r)
    ensures SwapJobs(s, socket, id1, id2) ==
              s.(queue := JobsOf(r), sent := s.sent + [if swapped then SwapJobsOk(socket) else Line(socket)])
  {
    r := q;
    var p1, p2;
    ghost var a, b;
    p1, a := FindNode(head, id1, q);
    p2, b := FindNode(head, id2, q);
    if p1 == null || p2 == null || p1 == head || p2 == head {
      return false, r;
    }
    SwapNodes(head, p1, p2, q, a, b);
    r := q[a := q[b]][b := q[a]];
    assert JobsOf(r) == s.queue[a := s.queue[b]][b := s.queue[a]];
    swapped := true;
  }

  // ---- the finished list ----

  /** The nodes of the finished list after new_finished_job. */
  ghost function FinishedNodes(f: seq<Node>, p: Node, max: nat): seq<Node> {
    (if f != [] && |f| >= max then f[1..] else f) + [p]
  }

  lemma FinishedJobs(f: seq<Node>, p: Node, max: nat)
    ensures NewFinished(JobsOf(f), p.job, max) ==
              if (f == [] && max == 0) || (|f| == 1 && max <= 1) then None else Some(JobsOf(FinishedNodes(f, p, max)))
  {
    var jobs := JobsOf(FinishedNodes(f, p, max));
    if f == [] {
      assert JobsOf(f) == [] && jobs == [p.job];
    } else if |f| < max {
      assert jobs == JobsOf(f) + [p.job];
    } else {
      assert jobs == JobsOf(f)[1..] + [p.job];
    }
  }

  /** new_finished_job. The node `p` may still be linked in the run queue: its `next` is cut there. */
  method NewFinishedNode(head: Node?, p: Node, max: nat, ghost q: seq<Node>) returns (ok: bool, r: Node?)
    requires Chain(head, q) && p !in q
    modifies p, q
    ensures ok <==> NewFinished(JobsOf(q), p.job, max).Some?
    ensures ok ==> Chain(r, FinishedNodes(q, p, max))
    ensures ok ==> NewFinished(JobsOf(q), p.job, max) == Some(JobsOf(FinishedNodes(q, p, max)))
  {
    FinishedJobs(q, p, max);
    r := head;
    if head == null {
      if max == 0 {
        return false, r;
      }
      r := p;
      p.next := null;
      return true, r;
    }
    var last := head;
    var count := 1;
    while last.next != null
      invariant 1 <= count <= |q| && last == q[count - 1]
      invariant last.next == if count < |q| then q[count] else null
      decreases |q| - count
    {
      last := last.next;
      count := count + 1;
    }
    if count >= max {
      if count == 1 {
        // the only node is freed and then written to
        return false, r;
      }
      r := head.next;
    }
    last.next := p;
    p.next := null;
    ok := true;
  }

  /** What the two chains hold after the end of a job is what the specification says. */
  lemma RetiredJobs(s: Jobs, q: seq<Node>, f: seq<Node>, k: nat, store: bool)
    requires s.queue == JobsOf(q) && s.finished == JobsOf(f) && k < |q|
    requires store <==> q[k].job.keep || Awaited(s.waiters, q[k].job.id)
    ensures Retire(s, k).Some? <==> !store || NewFinished(JobsOf(f), q[k].job, s.maxFinished).Some?
    ensures Retire(s, k).Some? ==>
              Retire(s, k).value == s.(queue := JobsOf(RemoveAt(q, k)),
                                       finished := JobsOf(if store then FinishedNodes(f, q[k], s.maxFinished) else f))
  {
    JobsRemoved(q, k);
    FinishedJobs(f, q[k], s.maxFinished);
  }

  /** The link changes at the end of job_finished. The pointer to the node and what follows it are taken
      first, so that the run queue can be relinked after new_finished_job has cut the node's own `next`. */
  method FinishLinks(firstjob: Node?, firstFinished: Node?, p: Node, store: bool, max: nat,
                     ghost q: seq<Node>, ghost f: seq<Node>, ghost k: nat)
    returns (ok: bool, newFirst: Node?, newFirstFinished: Node?)
    requires Chain(firstjob, q) && Chain(firstFinished, f) && Apart(q, f) && k < |q| && q[k] == p
    modifies q, f
    ensures ok <==> !store || NewFinished(JobsOf(f), p.job, max).Some?
    ensures ok ==> Chain(newFirst, RemoveAt(q, k))
    ensures ok ==> Chain(newFirstFinished, if store then FinishedNodes(f, p, max) else f)
    ensures ok ==> Apart(RemoveAt(q, k), if store then FinishedNodes(f, p, max) else f)
  {
    var newnext := p.next;
    assert newnext == if k + 1 < |q| then q[k + 1] else null;
    var before := FindPrevious(firstjob, p, q, k);
    ok, newFirst, newFirstFinished := true, firstjob, firstFinished;
    if store {
      ok, newFirstFinished := NewFinishedNode(firstFinished, p, max, f);
      if !ok {
        return;
      }
    }
    RemoveAtElements(q, k);
    newFirst := UnlinkNode(firstjob, before, newnext, q, k);
  }

  /** The end of job_finished: the job leaves the run queue, and is stored when it is to be kept or awaited. */
  method FinishNode(firstjob: Node?, firstFinished: Node?, p: Node, store: bool, max: nat,
                    ghost q: seq<Node>, ghost f: seq<Node>, ghost k: nat, ghost s: Jobs)
    returns (ok: bool, newFirst: Node?, newFirstFinished: Node?, ghost left: seq<Node>, ghost stored: seq<Node>)
    requires Chain(firstjob, q) && Chain(firstFinished, f) && Apart(q, f) && k < |q| && q[k] == p
    requires s.queue == JobsOf(q) && s.finished == JobsOf(f) && s.maxFinished == max
    requires store <==> p.job.keep || Awaited(s.waiters, p.job.id)
    modifies q, f
    ensures ok <==> Retire(s, k).Some?
    ensures ok ==> Chain(newFirst, left) && Chain(newFirstFinished, stored) && Apart(left, stored)
    ensures ok ==> Retire(s, k) == Some(s.(queue := JobsOf(left), finished := JobsOf(stored)))
  {
    left, stored := RemoveAt(q, k), if store then FinishedNodes(f, p, max) else f;
    RetiredJobs(s, q, f, k, store);
    ok, newFirst, newFirstFinished := FinishLinks(firstjob, firstFinished, p, store, max, q, f, k);
  }

  /** With a limit of at least two, the finished list stays within the limit. */
  lemma FinishedBounded(f: seq<Node>, p: Node, max: nat)
    requires max >= 2 && |f| <= max
    ensures |FinishedNodes(f, p, max)| <= max
  {
  }

  /** destroy_finished_job: the node `j` is unlinked, or `ok` is false when it is not in the chain. */
  method DestroyNode(head: Node?, j: Node, ghost q: seq<Node>) returns (ok: bool, r: Node?, ghost k: nat)
    requires Chain(head, q)
    modifies q
    ensures ok <==> j in q
    ensures ok ==> k < |q| && q[k] == j && Chain(r, RemoveAt(q, k))
  {
    k := 0;
    r := head;
    if j == head {
      assert q[0].next == if 1 < |q| then q[1] else null;
      r := UnlinkNode(head, null, j.next, q, 0);
      return true, r, 0;
    }
    var i := head;
    while i != null
      invariant 0 <= k <= |q| && i == if k < |q| then q[k] else null
      invariant forall m :: 0 <= m <= k && m < |q| ==> q[m] != j
      decreases |q| - k
    {
      assert q[k].next == if k + 1 < |q| then q[k + 1] else null;
      if i.next == j {
        r := UnlinkNode(head, i, j.next, q, k + 1);
        return true, r, k + 1;
      }
      i := i.next;
      k := k + 1;
    }
    ok := false;
  }

  // ---- the notification list ----

  /** add_to_notify_list. */
  method AppendWaiter(head: WaitNode?, w: WaitNode, ghost q: seq<WaitNode>) returns (r: WaitNode)
    requires WaitChain(head, q) && w !in q && w.next == null
    modifies q
    ensures WaitChain(r, q + [w])
  {
    if head == null {
      return w;
    }
    var n: WaitNode := head;
    ghost var k := 0;
    while n.next != null
      invariant 0 <= k < |q| && n == q[k] && n.next == if k + 1 < |q| then q[k + 1] else null
      decreases |q| - k
    {
      n := n.next;
      k := k + 1;
    }
    n.next := w;
    r := head;
  }

  /** s_remove_notification: the first node for the socket, if any, is unlinked. */
  method RemoveWaiter(head: WaitNode?, socket: int, ghost q: seq<WaitNode>)
    returns (r: WaitNode?, ghost left: seq<WaitNode>)
    requires WaitChain(head, q)
    modifies q
    ensures WaitChain(r, left) && WaitersOf(left) == RemoveNotification(WaitersOf(q), socket)
  {
    var n := head;
    ghost var k := 0;
    while n != null && n.waiter.socket != socket
      invariant 0 <= k <= |q| && n == if k < |q| then q[k] else null
      invariant forall i :: 0 <= i < k ==> q[i].waiter.socket != socket
      decreases |q| - k
    {
      assert q[k].next == if k + 1 < |q| then q[k + 1] else null;
      n := n.next;
      k := k + 1;
    }
    if n == null {
      WaiterAt(WaitersOf(q), socket, -1);
      return head, q;
    }
    WaiterAt(WaitersOf(q), socket, k);
    r := UnlinkWaiter(head, n, q, k);
    left := RemoveAt(q, k);
    assert WaitersOf(left) == RemoveAt(WaitersOf(q), k);
  }

  method UnlinkWaiter(head: WaitNode?, n: WaitNode, ghost q: seq<WaitNode>, ghost k: nat) returns (r: WaitNode?)
    requires WaitChain(head, q) && k < |q| && q[k] == n
    modifies q
    ensures WaitChain(r, RemoveAt(q, k))
  {
    RemoveAtElements(q, k);
    assert n.next == if k + 1 < |q| then q[k + 1] else null;
    if head == n {
      return n.next;
    }
    var previous: WaitNode := head;
    ghost var m := 0;
    while previous.next != n
      invariant 0 <= m < k && previous == q[m] && previous.next == q[m + 1]
      decreases k - m
    {
      previous := previous.next;
      m := m + 1;
      assert q[m].next == if m + 1 < |q| then q[m + 1] else null;
    }
    previous.next := n.next;
    r := head;
  }
}
