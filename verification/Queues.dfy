/** The doubly linked rings under every queue of the kernel: a header and, behind it, the entries.

    A ring is described by the sequence `r` of its nodes, the header `r[0]` first.
  */
module Queues {
  import opened PriorityList
  import opened ReadyQueues

  class Node {
    var next: Node
    var prev: Node
    const task: nat

    /** `queue_initialize`: a header that leads to itself. */
    constructor (t: nat)
      ensures Ring([this]) && task == t
    {
      task := t;
      next := this;
      prev := this;
      new;
      assert LinkAt([this], 0);
    }
  }

  /** The node at position `i`; behind the last one comes the header again. */
  function NodeAt(r: seq<Node>, i: nat): Node
    requires i <= |r| && r != []
  {
    if i == |r| then r[0] else r[i]
  }

  ghost predicate LinkAt(r: seq<Node>, i: nat)
    reads r
  {
    i < |r| ==> r[i].next == NodeAt(r, i + 1) && NodeAt(r, i + 1).prev == r[i]
  }

  predicate Distinct(r: seq<Node>) { forall i, j :: 0 <= i < j < |r| ==> r[i] != r[j] }

  ghost predicate Ring(r: seq<Node>)
    reads r
  {
    r != [] && Distinct(r) && forall i: nat :: LinkAt(r, i)
  }

  /** The tasks in the queue, the first one first. */
  function Tasks(r: seq<Node>): (q: seq<nat>)
    requires r != []
    ensures |q| == |r| - 1 && forall i :: 0 <= i < |q| ==> q[i] == r[i + 1].task
  {
    seq(|r| - 1, i requires 0 <= i < |r| - 1 => r[i + 1].task)
  }

  /** The ring with `entry` put in ahead of position `k`. */
  function With(r: seq<Node>, entry: Node, k: nat): seq<Node>
    requires k <= |r|
  {
    r[..k] + [entry] + r[k..]
  }

  /** Ahead of `queue`; ahead of the header is the end. */
  method QueueInsertPrev(queue: Node, entry: Node, ghost r: seq<Node>, ghost k: nat)
    requires Ring(r) && 1 <= k <= |r| && queue == NodeAt(r, k) && entry !in r
    modifies queue`prev, queue.prev`next, entry
    ensures Ring(With(r, entry, k)) && Tasks(With(r, entry, k)) == Tasks(r)[..k - 1] + [entry.task] + Tasks(r)[k - 1..]
  {
    assert LinkAt(r, k - 1);
    entry.prev := queue.prev;
    entry.next := queue;
    queue.prev.next := entry;
    queue.prev := entry;
    ghost var r1 := With(r, entry, k);
    forall i: nat ensures LinkAt(r1, i) {
      assert old(LinkAt(r, if i < k then i else i - 1));
    }
  }

  /** Behind `queue`; behind the header is the front. */
  method QueueInsertNext(queue: Node, entry: Node, ghost r: seq<Node>, ghost k: nat)
    requires Ring(r) && k < |r| && queue == r[k] && entry !in r
    modifies queue`next, queue.next`prev, entry
    ensures Ring(With(r, entry, k + 1)) && Tasks(With(r, entry, k + 1)) == Tasks(r)[..k] + [entry.task] + Tasks(r)[k..]
  {
    assert LinkAt(r, k);
    entry.prev := queue;
    entry.next := queue.next;
    queue.next.prev := entry;
    queue.next := entry;
    ghost var r1 := With(r, entry, k + 1);
    forall i: nat ensures LinkAt(r1, i) {
      assert old(LinkAt(r, if i <= k then i else i - 1));
    }
  }

  lemma TasksWithout(r: seq<Node>, k: nat)
    requires 1 <= k < |r|
    ensures Tasks(r[..k] + r[k + 1..]) == Tasks(r)[..k - 1] + Tasks(r)[k..]
    ensures r[k].task !in Tasks(r)[..k - 1] ==> Tasks(r[..k] + r[k + 1..]) == Remove(Tasks(r), r[k].task)
  {
    if r[k].task !in Tasks(r)[..k - 1] { RemoveAt(Tasks(r), r[k].task, k - 1); }
  }

  /** The entry's neighbours are linked to each other. */
  method QueueDelete(entry: Node, ghost r: seq<Node>, ghost k: nat)
    requires Ring(r) && 1 <= k < |r| && entry == r[k]
    modifies entry.prev`next, entry.next`prev
    ensures Ring(r[..k] + r[k + 1..]) && Tasks(r[..k] + r[k + 1..]) == Tasks(r)[..k - 1] + Tasks(r)[k..]
    ensures entry.task !in Tasks(r)[..k - 1] ==> Tasks(r[..k] + r[k + 1..]) == Remove(Tasks(r), entry.task)
  {
    TasksWithout(r, k);
    assert LinkAt(r, k - 1) && LinkAt(r, k);
    entry.prev.next := entry.next;
    entry.next.prev := entry.prev;
    ghost var r1 := r[..k] + r[k + 1..];
    forall i: nat ensures LinkAt(r1, i) {
      assert old(LinkAt(r, if i < k then i else i + 1));
    }
  }

  method QueueEmpty(queue: Node, ghost r: seq<Node>) returns (empty: bool)
    requires Ring(r) && queue == r[0]
    ensures empty <==> Tasks(r) == []
  {
    assert LinkAt(r, 0);
    empty := queue.next == queue;
  }

  /** The first entry leaves the queue. */
  method QueueDeleteNext(queue: Node, ghost r: seq<Node>) returns (entry: Node)
    requires Ring(r) && queue == r[0] && Tasks(r) != []
    modifies queue`next, queue.next.next`prev
    ensures entry == r[1] && Ring([queue] + r[2..]) && Tasks([queue] + r[2..]) == Tasks(r)[1..]
  {
    assert LinkAt(r, 0) && LinkAt(r, 1);
    entry := queue.next;
    queue.next := entry.next;
    entry.next.prev := queue;
    ghost var r1 := [queue] + r[2..];
    forall i: nat ensures LinkAt(r1, i) {
      assert old(LinkAt(r, if i < 1 then i else i + 1));
    }
  }

  /** `queue_insert_tpri`: the walk along the links puts the task where a queue by priority has its place. */
  method QueueInsertTpri(queue: Node, entry: Node, pri: seq<nat>, ghost r: seq<Node>) returns (ghost k: nat)
    requires Ring(r) && queue == r[0] && entry !in r && forall x :: x in r || x == entry ==> x.task < |pri|
    modifies r, entry
    ensures 1 <= k <= |r| && Ring(With(r, entry, k)) && Tasks(With(r, entry, k)) == Insert(pri, Tasks(r), entry.task, false)
  {
    assert LinkAt(r, 0);
    var p := queue.next;
    k := 1;
    while p != queue && pri[p.task] <= pri[entry.task]
      invariant 1 <= k <= |r| && p == NodeAt(r, k)
      invariant forall i :: 0 <= i < k - 1 ==> At(pri, Tasks(r)[i]) <= At(pri, entry.task)
      decreases |r| - k
    {
      assert LinkAt(r, k);
      p := p.next;
      k := k + 1;
    }
    assert LinkAt(r, k - 1);
    SlotUnique(pri, Tasks(r), At(pri, entry.task), false, k - 1);
    QueueInsertPrev(p, entry, r, k);
  }
}
