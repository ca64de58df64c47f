/** The control blocks of the kernel, and what they say in terms of the specification. */
module KernelData {
  import opened Bitmap
  import opened PriorityList
  import opened ReadyQueues
  import opened KernelSpec
  import opened KernelInv

  /** Task control block. The lock chain starts at `lastmtx` and goes on through the mutexes. */
  datatype TCB = TCB(stat: Stat, ipri: nat, noactque: bool, bpri: nat, pri: nat, lastmtx: Option<nat>,
                     actque: bool, wupque: bool, raster: bool, enater: bool, winfo: WInfo)

  function Prios(tcb: seq<TCB>): (r: seq<nat>)
    ensures |r| == |tcb| && forall t :: 0 <= t < |tcb| ==> r[t] == tcb[t].pri
  {
    PriosTo(tcb, |tcb|)
  }

  function PriosTo(tcb: seq<TCB>, n: nat): (r: seq<nat>)
    requires n <= |tcb|
    ensures |r| == n && forall t :: 0 <= t < n ==> r[t] == tcb[t].pri
  {
    if n == 0 then [] else PriosTo(tcb, n - 1) + [tcb[n - 1].pri]
  }

  lemma SamePrios(tcb: seq<TCB>, t: nat, y: TCB)
    requires t < |tcb| && y.pri == tcb[t].pri
    ensures Prios(tcb[t := y]) == Prios(tcb)
  {}

  function Head(q: seq<nat>): Option<nat> { if q == [] then None else Some(q[0]) }

  // ---------- the head of the precedence list ----------

  /** The task to run that the kernel remembers is the one a search would find, or, while dispatching is
      held off, the running task. */
  ghost predicate Remembered(pri: seq<nat>, rq: seq<seq<nat>>, primap: nat, dsp: bool, sched: Option<nat>, run: Option<nat>) {
    Queued(pri, rq, primap) && sched == if dsp then Head(Flat(rq)) else run
  }

  /** A task joins the end of the queue of its priority; it is to run if it is better than all. */
  lemma JoinEnd(pri: seq<nat>, rq: seq<seq<nat>>, primap: nat, dsp: bool, sched: Option<nat>, run: Option<nat>, t: nat)
    returns (rq': seq<seq<nat>>, sched': Option<nat>)
    requires Remembered(pri, rq, primap, dsp, sched, run) && t < |pri| && pri[t] < LEVELS && t !in Flat(rq)
    ensures rq' == rq[pri[t] := rq[pri[t]] + [t]]
    ensures dsp && sched.Some? ==> sched.value < |pri|
    ensures sched' == if dsp && (sched == None || pri[t] < pri[sched.value]) then Some(t) else sched
    ensures Remembered(pri, rq', Set(primap, pri[t]), dsp, sched', run)
    ensures Flat(rq') == Insert(pri, Flat(rq), t, false)
  {
    rq' := rq[pri[t] := rq[pri[t]] + [t]];
    if Flat(rq) != [] { FlatIn(pri, rq, 0, Flat(rq)[0]); }
    sched' := if dsp && (sched == None || pri[t] < pri[sched.value]) then Some(t) else sched;
    QueuedJoin(pri, rq, primap, t, false);
  }

  lemma LeaveHead(q: seq<nat>, t: nat)
    ensures Head(q) != Some(t) ==> Head(Remove(q, t)) == Head(q)
  {}

  /** When the head leaves a queue that is still in use, the queue's next task is the new head. */
  lemma BestQueue(pri: seq<nat>, rq: seq<seq<nat>>, rq': seq<seq<nat>>, t: nat)
    requires Ranked(pri, rq, 0) && |rq| == |rq'| == LEVELS && Flat(rq) != [] && Flat(rq)[0] == t
    requires At(pri, t) < LEVELS && rq' == rq[At(pri, t) := rq'[At(pri, t)]] && rq'[At(pri, t)] != []
    ensures Flat(rq') != [] && Flat(rq')[0] == rq'[At(pri, t)][0]
  {
    var p := At(pri, t);
    forall k: nat | k < p ensures rq'[k] == [] {
      if rq[k] != [] { HeadQueue(pri, rq, 0, k); }
    }
    FlatHead(rq', p);
  }

  /** A newcomer no worse than the head is first, or behind the head of its own queue. */
  lemma BestNewcomer(pri: seq<nat>, rq: seq<seq<nat>>, rq': seq<seq<nat>>, p: nat)
    requires Ranked(pri, rq, 0) && |rq| == |rq'| == LEVELS && Flat(rq) != [] && p <= At(pri, Flat(rq)[0])
    requires p < LEVELS && rq' == rq[p := rq'[p]] && rq'[p] != []
    ensures Flat(rq') != [] && Flat(rq')[0] == rq'[p][0]
  {
    forall k: nat | k < p ensures rq'[k] == [] {
      if rq[k] != [] { HeadQueue(pri, rq, 0, k); }
    }
    FlatHead(rq', p);
  }

  /** A head that gets a better priority is the head still. */
  lemma HeadImproves(pri: seq<nat>, q: seq<nat>, t: nat, n: nat, front: bool)
    requires Sorted(pri, q) && NoDup(q) && q != [] && q[0] == t && t < |pri| && n < pri[t]
    ensures Head(Insert(pri[t := n], Remove(q, t), t, front)) == Some(t)
  {
    assert IndexOf(q, t) == 0;
    if |q| > 1 { assert InOrder(pri, q, 0, 1) && Apart(q, 0, 1); }
  }

  /** A newcomer worse than the head leaves the head alone. */
  lemma HeadStaysFirst(pri: seq<nat>, q: seq<nat>, t: nat, front: bool)
    requires q != [] && At(pri, q[0]) < At(pri, t)
    ensures Head(Insert(pri, q, t, front)) == Some(q[0])
  {}

  /** The first task of a queue goes to its end. */
  lemma QueuedRotate(pri: seq<nat>, rq: seq<seq<nat>>, primap: nat, p: nat)
    requires Queued(pri, rq, primap) && p < LEVELS && |rq[p]| > 1
    ensures var x := rq[p][0];
      var rq' := rq[p := rq[p][1..] + [x]];
      && Queued(pri, rq', primap) && Flat(rq') == Insert(pri, Remove(Flat(rq), x), x, false)
      && (Head(Flat(rq)) == Some(x) ==> Head(Flat(rq')) == Some(rq'[p][0]))
      && (Head(Flat(rq)) != Some(x) ==> Head(Flat(rq')) == Head(Flat(rq)))
  {
    var x := rq[p][0];
    var rq1 := rq[p := rq[p][1..]];
    var rq' := rq[p := rq[p][1..] + [x]];
    assert IndexOf(rq[p], x) == 0;
    MemberOfFlat(rq, p, x);
    assert RankedAt(pri, rq[p], 0 + p);
    QueuedLeave(pri, rq, primap, x);
    assert Remove(rq[p], x) == rq[p][1..];
    RemoveFacts(Flat(rq), x);
    QueuedJoin(pri, rq1, primap, x, false);
    assert rq1[p := rq1[p] + [x]] == rq';
    forall k: nat ensures BitAt(rq', primap, k) { assert BitAt(rq, primap, k); }
    RotatedHead(pri, rq, rq', p);
  }

  lemma RotatedHead(pri: seq<nat>, rq: seq<seq<nat>>, rq': seq<seq<nat>>, p: nat)
    requires Ranked(pri, rq, 0) && |rq| == |rq'| == LEVELS && p < LEVELS && |rq[p]| > 1
    requires rq' == rq[p := rq[p][1..] + [rq[p][0]]]
    ensures Head(Flat(rq)) == Some(rq[p][0]) ==> Head(Flat(rq')) == Some(rq'[p][0])
    ensures Head(Flat(rq)) != Some(rq[p][0]) ==> Head(Flat(rq')) == Head(Flat(rq))
  {
    var h := FirstUsed(rq, p);
    assert rq'[h] != [];
    FlatHead(rq, h);
    FlatHead(rq', h);
    assert RankedAt(pri, rq[p], 0 + p) && RankedAt(pri, rq[h], 0 + h) && rq[h][0] in rq[h] && rq[p][0] in rq[p];
  }

  lemma {:induction false} FirstUsed(rq: seq<seq<nat>>, p: nat) returns (h: nat)
    requires p < |rq| && rq[p] != []
    ensures h <= p && rq[h] != [] && forall k :: 0 <= k < h ==> rq[k] == []
  {
    if rq[0] != [] {
      h := 0;
    } else {
      h := FirstUsed(rq[1..], p - 1);
      assert forall k :: 0 < k <= h ==> rq[k] == rq[1..][k - 1];
      h := h + 1;
    }
  }

  /** A task leaves its queue and joins that of another priority. */
  lemma QueuedMove(pri: seq<nat>, rq: seq<seq<nat>>, primap: nat, t: nat, n: nat, front: bool)
    requires Queued(pri, rq, primap) && t in Flat(rq) && n < LEVELS
    ensures t < |pri| && pri[t] < LEVELS
    ensures var rq1 := rq[pri[t] := Remove(rq[pri[t]], t)];
      var map1 := if rq1[pri[t]] == [] then Clear(primap, pri[t]) else primap;
      var rq' := rq1[n := if front then [t] + rq1[n] else rq1[n] + [t]];
      && Queued(pri[t := n], rq', Set(map1, n)) && rq'[n] != []
      && Flat(rq') == Insert(pri[t := n], Remove(Flat(rq), t), t, front)
      && MovedHead(pri, rq, rq', t, n)
  {
    QueuedLeave(pri, rq, primap, t);
    RemoveFacts(Flat(rq), t);
    var rq1 := rq[pri[t] := Remove(rq[pri[t]], t)];
    var map1 := if rq1[pri[t]] == [] then Clear(primap, pri[t]) else primap;
    QueuedReprio(pri, rq1, map1, t, n);
    QueuedJoin(pri[t := n], rq1, map1, t, front);
    MoveHead(pri, rq, rq1, t, n, front);
  }

  /** The head after a task has moved. */
  ghost predicate MovedHead(pri: seq<nat>, rq: seq<seq<nat>>, rq': seq<seq<nat>>, t: nat, n: nat)
    requires t < |pri| && n < |rq'| && rq'[n] != []
  {
    match Head(Flat(rq))
    case None => true
    case Some(h) =>
      if h == t then n < pri[t] ==> Head(Flat(rq')) == Some(t)
      else h < |pri| && Head(Flat(rq')) == Some(if n <= pri[h] then rq'[n][0] else h)
  }

  lemma MoveHead(pri: seq<nat>, rq: seq<seq<nat>>, rq1: seq<seq<nat>>, t: nat, n: nat, front: bool)
    requires Ranked(pri, rq, 0) && NoDup(Flat(rq)) && t in Flat(rq) && t < |pri| && n < |rq| == LEVELS
    requires Ranked(pri[t := n], rq1, 0) && |rq1| == LEVELS && Flat(rq1) == Remove(Flat(rq), t)
    requires var rq' := rq1[n := if front then [t] + rq1[n] else rq1[n] + [t]];
      Flat(rq') == Insert(pri[t := n], Remove(Flat(rq), t), t, front)
    ensures MovedHead(pri, rq, rq1[n := if front then [t] + rq1[n] else rq1[n] + [t]], t, n)
  {
    var rq' := rq1[n := if front then [t] + rq1[n] else rq1[n] + [t]];
    var h := Flat(rq)[0];
    if h == t {
      FlatSorted(pri, rq, 0);
      if n < pri[t] { HeadImproves(pri, Flat(rq), t, n, front); }
    } else {
      LeaveHead(Flat(rq), t);
      FlatIn(pri, rq, 0, h);
      if n <= pri[h] { BestNewcomer(pri[t := n], rq1, rq', n); }
      else { HeadStaysFirst(pri[t := n], Flat(rq1), t, front); }
    }
  }

  /** The precedence list when the first task of priority `p`, if there is one, has gone behind its equals. */
  function Rotated(pri: seq<nat>, rq: seq<seq<nat>>, p: nat): seq<nat>
    requires p < |rq|
  {
    if rq[p] == [] then Flat(rq) else Insert(pri, Remove(Flat(rq), rq[p][0]), rq[p][0], false)
  }

  lemma Single(q: seq<nat>)
    requires |q| == 1
    ensures q == [q[0]] && Remove(q, q[0]) == []
  {
    assert IndexOf(q, q[0]) == 0 by { assert q[0] in q; }
  }

  /** Rotating a queue of one task changes nothing. */
  lemma OnlyOne(pri: seq<nat>, rq: seq<seq<nat>>, primap: nat, p: nat)
    requires Queued(pri, rq, primap) && p < LEVELS
    ensures |rq[p]| == 1 ==> Insert(pri, Remove(Flat(rq), rq[p][0]), rq[p][0], false) == Flat(rq)
  {
    if |rq[p]| == 1 {
      var x, a, b := rq[p][0], Flat(rq[..p]), Flat(rq[p+1..]);
      FlatSplit(rq, p);
      RankedParts(pri, rq, p);
      Single(rq[p]);
      RemoveAhead(a + [x], b, x);
      RemoveBehind(a, [x], x);
      assert a + [] == a;
      InsertBehind(pri, a, b, x);
    }
  }
}
