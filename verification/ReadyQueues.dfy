/** One precedence list out of one queue a priority. */
module ReadyQueues {
  import opened Bitmap
  import opened PriorityList

  function Flat(rq: seq<seq<nat>>): seq<nat> {
    if rq == [] then [] else rq[0] + Flat(rq[1..])
  }

  /** Every task is in the queue of its priority; the first queue is that of priority `base`. */
  ghost predicate Ranked(pri: seq<nat>, rq: seq<seq<nat>>, base: nat) {
    forall p :: 0 <= p < |rq| ==> RankedAt(pri, rq[p], base + p)
  }

  ghost predicate RankedAt(pri: seq<nat>, q: seq<nat>, p: nat) {
    forall x :: x in q ==> x < |pri| && At(pri, x) == p
  }

  lemma {:induction false} FlatSplit(rq: seq<seq<nat>>, p: nat)
    requires p < |rq|
    ensures Flat(rq) == Flat(rq[..p]) + rq[p] + Flat(rq[p+1..])
  {
    if p == 0 {
      assert rq[..0] == [];
    } else {
      FlatSplit(rq[1..], p - 1);
      assert rq[1..][..p-1] == rq[..p][1..] && rq[1..][p..] == rq[p+1..];
      assert rq[..p][0] == rq[0];
    }
  }

  lemma {:induction false} FlatIn(pri: seq<nat>, rq: seq<seq<nat>>, base: nat, x: nat)
    requires Ranked(pri, rq, base) && x in Flat(rq)
    ensures x < |pri| && base <= At(pri, x) < base + |rq| && x in rq[At(pri, x) - base]
  {
    if x in rq[0] {
      assert RankedAt(pri, rq[0], base + 0);
    } else {
      RankedRest(pri, rq, base);
      FlatIn(pri, rq[1..], base + 1, x);
    }
  }

  lemma RankedRest(pri: seq<nat>, rq: seq<seq<nat>>, base: nat)
    requires Ranked(pri, rq, base) && rq != []
    ensures Ranked(pri, rq[1..], base + 1)
  {
    forall p | 0 <= p < |rq[1..]| ensures RankedAt(pri, rq[1..][p], base + 1 + p) {
      assert RankedAt(pri, rq[p + 1], base + (p + 1));
    }
  }

  lemma RankedParts(pri: seq<nat>, rq: seq<seq<nat>>, p: nat)
    requires Ranked(pri, rq, 0) && p < |rq|
    ensures forall x :: x in Flat(rq[..p]) ==> At(pri, x) < p
    ensures forall x :: x in rq[p] ==> At(pri, x) == p
    ensures forall x :: x in Flat(rq[p+1..]) ==> At(pri, x) > p
  {
    assert RankedAt(pri, rq[p], 0 + p);
    var lo, hi := rq[..p], rq[p+1..];
    forall k | 0 <= k < |lo| ensures RankedAt(pri, lo[k], 0 + k) { assert RankedAt(pri, rq[k], 0 + k); }
    forall k | 0 <= k < |hi| ensures RankedAt(pri, hi[k], p + 1 + k) { assert RankedAt(pri, rq[p + 1 + k], 0 + (p + 1 + k)); }
    forall x | x in Flat(lo) ensures At(pri, x) < p { FlatIn(pri, lo, 0, x); }
    forall x | x in Flat(hi) ensures At(pri, x) > p { FlatIn(pri, hi, p + 1, x); }
  }

  lemma MemberOfFlat(rq: seq<seq<nat>>, p: nat, x: nat)
    requires p < |rq|
    ensures x in rq[p] ==> x in Flat(rq)
  {
    FlatSplit(rq, p);
  }

  /** Between what is better than `p` and what is worse, a newcomer of priority `p` goes behind its
      equals. */
  lemma InsertBehind(pri: seq<nat>, a: seq<nat>, b: seq<nat>, t: nat)
    requires forall x :: x in a ==> At(pri, x) <= At(pri, t)
    requires forall x :: x in b ==> At(pri, x) > At(pri, t)
    ensures Insert(pri, a + b, t, false) == a + [t] + b
  {
    var q := a + b;
    assert forall i :: 0 <= i < |a| ==> q[i] in a;
    assert |a| < |q| ==> q[|a|] in b;
    SlotUnique(pri, q, At(pri, t), false, |a|);
    assert q[..|a|] == a && q[|a|..] == b;
  }

  lemma InsertAhead(pri: seq<nat>, a: seq<nat>, b: seq<nat>, t: nat)
    requires forall x :: x in a ==> At(pri, x) < At(pri, t)
    requires forall x :: x in b ==> At(pri, x) >= At(pri, t)
    ensures Insert(pri, a + b, t, true) == a + [t] + b
  {
    var q := a + b;
    assert forall i :: 0 <= i < |a| ==> q[i] in a;
    assert |a| < |q| ==> q[|a|] in b;
    SlotUnique(pri, q, At(pri, t), true, |a|);
    assert q[..|a|] == a && q[|a|..] == b;
  }

  lemma {:induction false} FirstIndex<T>(q: seq<T>, t: T, k: nat)
    requires k < |q| && q[k] == t && t !in q[..k]
    ensures IndexOf(q, t) == k
  {
    if k > 0 {
      assert q[..k][0] == q[0];
      assert q[1..][..k-1] == q[..k][1..];
      FirstIndex(q[1..], t, k - 1);
    }
  }

  lemma RemoveAt(q: seq<nat>, t: nat, k: nat)
    requires k < |q| && q[k] == t && t !in q[..k]
    ensures Remove(q, t) == q[..k] + q[k + 1..]
  {
    FirstIndex(q, t, k);
  }

  lemma SliceBehind(a: seq<nat>, q: seq<nat>, i: nat)
    requires i < |q|
    ensures (a + q)[..|a| + i] == a + q[..i] && (a + q)[|a| + i + 1..] == q[i + 1..]
  {}

  lemma SliceAhead(q: seq<nat>, b: seq<nat>, i: nat)
    requires i < |q|
    ensures (q + b)[..i] == q[..i] && (q + b)[i + 1..] == q[i + 1..] + b
  {}

  lemma Joined(a: seq<nat>, b: seq<nat>, c: seq<nat>)
    ensures a + b + c == a + (b + c)
  {}

  lemma RemoveBehind(a: seq<nat>, q: seq<nat>, t: nat)
    requires t !in a && t in q
    ensures Remove(a + q, t) == a + Remove(q, t)
  {
    var i := IndexOf(q, t);
    SliceBehind(a, q, i);
    InNeither(a, q[..i], t);
    var r := a + q;
    assert r[|a| + i] == q[i];
    assert Remove(r, t) == r[..|a| + i] + r[|a| + i + 1..] by { RemoveAt(r, t, |a| + i); }
    Joined(a, q[..i], q[i + 1..]);
  }

  lemma InNeither(a: seq<nat>, b: seq<nat>, t: nat)
    requires t !in a && t !in b
    ensures t !in a + b
  {}

  lemma RemoveAhead(q: seq<nat>, b: seq<nat>, t: nat)
    requires t in q
    ensures Remove(q + b, t) == Remove(q, t) + b
  {
    var i := IndexOf(q, t);
    SliceAhead(q, b, i);
    var r := q + b;
    assert Remove(r, t) == r[..i] + r[i + 1..] by { RemoveAt(r, t, i); }
    Joined(q[..i], q[i + 1..], b);
  }

  lemma FlatUpdate(rq: seq<seq<nat>>, p: nat, q: seq<nat>)
    requires p < |rq|
    ensures Flat(rq[p := q]) == Flat(rq[..p]) + q + Flat(rq[p+1..])
  {
    var rq' := rq[p := q];
    FlatSplit(rq', p);
    assert rq'[..p] == rq[..p] && rq'[p+1..] == rq[p+1..];
  }

  /** Joining the queue of one's priority is joining the precedence list. */
  lemma AppendToFlat(pri: seq<nat>, rq: seq<seq<nat>>, t: nat)
    requires Ranked(pri, rq, 0) && At(pri, t) < |rq|
    ensures var p := At(pri, t); Flat(rq[p := rq[p] + [t]]) == Insert(pri, Flat(rq), t, false)
  {
    var p := At(pri, t);
    var a, m, b := Flat(rq[..p]), rq[p], Flat(rq[p+1..]);
    FlatSplit(rq, p);
    FlatUpdate(rq, p, m + [t]);
    RankedParts(pri, rq, p);
    InsertBehind(pri, a + m, b, t);
    assert (a + m) + [t] + b == a + (m + [t]) + b;
  }

  lemma PrependToFlat(pri: seq<nat>, rq: seq<seq<nat>>, t: nat)
    requires Ranked(pri, rq, 0) && At(pri, t) < |rq|
    ensures var p := At(pri, t); Flat(rq[p := [t] + rq[p]]) == Insert(pri, Flat(rq), t, true)
  {
    var p := At(pri, t);
    var a, m, b := Flat(rq[..p]), rq[p], Flat(rq[p+1..]);
    FlatSplit(rq, p);
    FlatUpdate(rq, p, [t] + m);
    RankedParts(pri, rq, p);
    assert Insert(pri, a + (m + b), t, true) == a + [t] + (m + b) by { InsertAhead(pri, a, m + b, t); }
    Joined(a, m, b);
    Around(a, [t], m, b);
  }

  lemma Around(a: seq<nat>, t: seq<nat>, m: seq<nat>, b: seq<nat>)
    ensures a + t + (m + b) == a + (t + m) + b
  {}

  lemma RemoveFromFlat(pri: seq<nat>, rq: seq<seq<nat>>, p: nat, t: nat)
    requires Ranked(pri, rq, 0) && p < |rq| && t in rq[p]
    ensures Flat(rq[p := Remove(rq[p], t)]) == Remove(Flat(rq), t)
  {
    var a, m, b := Flat(rq[..p]), rq[p], Flat(rq[p+1..]);
    FlatSplit(rq, p);
    FlatUpdate(rq, p, Remove(m, t));
    RankedParts(pri, rq, p);
    RemoveAhead(a + m, b, t);
    RemoveBehind(a, m, t);
  }

  /** The head of the first queue that is not empty is the head of the precedence list. */
  lemma {:induction false} FlatHead(rq: seq<seq<nat>>, p: nat)
    requires p < |rq| && rq[p] != [] && forall k :: 0 <= k < p ==> rq[k] == []
    ensures Flat(rq) != [] && Flat(rq)[0] == rq[p][0]
  {
    if p > 0 { FlatHead(rq[1..], p - 1); }
  }

  lemma {:induction false} FlatEmpty(rq: seq<seq<nat>>)
    requires forall k :: 0 <= k < |rq| ==> rq[k] == []
    ensures Flat(rq) == []
  {
    if rq != [] { FlatEmpty(rq[1..]); }
  }

  /** Only the priorities of the entries and of the newcomer matter. */
  lemma InsertFrame(pri: seq<nat>, pri': seq<nat>, q: seq<nat>, t: nat, front: bool)
    requires At(pri, t) == At(pri', t) && forall x :: x in q ==> At(pri, x) == At(pri', x)
    ensures Insert(pri, q, t, front) == Insert(pri', q, t, front)
  {
    SlotFrame(pri, pri', q, At(pri, t), front);
  }

  // ---------- queues and bitmap together ----------

  const LEVELS: nat := 16

  /** One queue a priority, no task in them twice, and a bit in the map for every queue in use. */
  ghost predicate Queued(pri: seq<nat>, rq: seq<seq<nat>>, primap: nat) {
    && |rq| == LEVELS && primap < Pow2(LEVELS)
    && Ranked(pri, rq, 0) && NoDup(Flat(rq))
    && (forall p: nat :: BitAt(rq, primap, p))
  }

  ghost predicate BitAt(rq: seq<seq<nat>>, primap: nat, p: nat) {
    p < |rq| ==> (Has(primap, p) <==> rq[p] != [])
  }

  lemma {:induction false} FlatSorted(pri: seq<nat>, rq: seq<seq<nat>>, base: nat)
    requires Ranked(pri, rq, base)
    ensures Sorted(pri, Flat(rq))
  {
    if rq != [] {
      RankedRest(pri, rq, base);
      FlatSorted(pri, rq[1..], base + 1);
      var q, a, b := Flat(rq), rq[0], Flat(rq[1..]);
      assert RankedAt(pri, a, base + 0);
      forall i, j | 0 <= i < j < |q| ensures InOrder(pri, q, i, j) {
        if i < |a| {
          assert q[i] in a;
          if j < |a| { assert q[j] in a; } else { assert q[j] in b; FlatIn(pri, rq[1..], base + 1, q[j]); }
        } else {
          assert InOrder(pri, b, i - |a|, j - |a|);
        }
      }
    }
  }

  /** The head of the precedence list is at least as good as the head of any queue. */
  lemma {:induction false} HeadQueue(pri: seq<nat>, rq: seq<seq<nat>>, base: nat, k: nat)
    requires Ranked(pri, rq, base) && k < |rq| && rq[k] != []
    ensures Flat(rq) != [] && At(pri, Flat(rq)[0]) <= base + k
  {
    if rq[0] == [] {
      RankedRest(pri, rq, base);
      HeadQueue(pri, rq[1..], base + 1, k - 1);
    } else {
      assert RankedAt(pri, rq[0], base + 0) && rq[0][0] in rq[0];
    }
  }

  lemma QueuedJoin(pri: seq<nat>, rq: seq<seq<nat>>, primap: nat, t: nat, front: bool)
    requires Queued(pri, rq, primap) && t < |pri| && pri[t] < LEVELS && t !in Flat(rq)
    ensures var p := pri[t];
      var rq' := rq[p := if front then [t] + rq[p] else rq[p] + [t]];
      && Queued(pri, rq', Set(primap, p))
      && Flat(rq') == Insert(pri, Flat(rq), t, front)
  {
    var p := pri[t];
    var rq' := rq[p := if front then [t] + rq[p] else rq[p] + [t]];
    if front { PrependToFlat(pri, rq, t); } else { AppendToFlat(pri, rq, t); }
    FlatSorted(pri, rq, 0);
    InsertFacts(pri, Flat(rq), t, front);
    StaysSmall(primap, p, LEVELS);
    forall k: nat | k < LEVELS ensures RankedAt(pri, rq'[k], 0 + k) && BitAt(rq', Set(primap, p), k) {
      assert RankedAt(pri, rq[k], 0 + k) && BitAt(rq, primap, k);
      SetBit(primap, p, k);
    }
  }

  lemma RemoveSubset(q: seq<nat>, t: nat)
    ensures forall x :: x in Remove(q, t) ==> x in q
  {
    var k := IndexOf(q, t);
    if k < |q| { assert q == q[..k] + [t] + q[k + 1..]; }
  }

  lemma QueuedLeave(pri: seq<nat>, rq: seq<seq<nat>>, primap: nat, t: nat)
    requires Queued(pri, rq, primap) && t in Flat(rq)
    ensures t < |pri| && pri[t] < LEVELS && t in rq[pri[t]]
    ensures var p := pri[t];
      var rq' := rq[p := Remove(rq[p], t)];
      && Queued(pri, rq', if rq'[p] == [] then Clear(primap, p) else primap)
      && Flat(rq') == Remove(Flat(rq), t)
  {
    FlatIn(pri, rq, 0, t);
    var p := pri[t];
    var rq' := rq[p := Remove(rq[p], t)];
    var map' := if rq'[p] == [] then Clear(primap, p) else primap;
    RemoveFromFlat(pri, rq, p, t);
    RemoveFacts(Flat(rq), t);
    StaysSmall(primap, p, LEVELS);
    RemoveSubset(rq[p], t);
    forall k: nat | k < LEVELS ensures RankedAt(pri, rq'[k], 0 + k) && BitAt(rq', map', k) {
      assert RankedAt(pri, rq[k], 0 + k) && BitAt(rq, primap, k);
      ClearBit(primap, p, k);
    }
  }

  /** A task in no queue may change its priority. */
  lemma QueuedReprio(pri: seq<nat>, rq: seq<seq<nat>>, primap: nat, t: nat, n: nat)
    requires Queued(pri, rq, primap) && t < |pri| && t !in Flat(rq)
    ensures Queued(pri[t := n], rq, primap)
  {
    forall k: nat | k < LEVELS ensures RankedAt(pri[t := n], rq[k], 0 + k) {
      assert RankedAt(pri, rq[k], 0 + k);
      MemberOfFlat(rq, k, t);
    }
  }

  /** The queue of the lowest bit set begins with the head of the precedence list. */
  lemma HeadFound(pri: seq<nat>, rq: seq<seq<nat>>, primap: nat, p: nat)
    requires Queued(pri, rq, primap) && Lowest(primap, p) && p < LEVELS
    ensures rq[p] != [] && Flat(rq) != [] && Flat(rq)[0] == rq[p][0]
  {
    forall k: nat | k <= p ensures rq[k] == [] <==> k < p { assert BitAt(rq, primap, k); }
    FlatHead(rq, p);
  }

  lemma MapEmpty(pri: seq<nat>, rq: seq<seq<nat>>, primap: nat)
    requires Queued(pri, rq, primap)
    ensures primap == 0 <==> Flat(rq) == []
    ensures primap != 0 ==> forall p: nat :: Lowest(primap, p) ==> p < LEVELS
  {
    if Flat(rq) != [] {
      var t := Flat(rq)[0];
      FlatIn(pri, rq, 0, t);
      assert BitAt(rq, primap, At(pri, t));
      EmptyMap(At(pri, t));
    } else if primap != 0 {
      var p := SomeBit(primap, LEVELS);
      assert BitAt(rq, primap, p);
      FlatSplit(rq, p);
    }
    if primap != 0 {
      var q := SomeBit(primap, LEVELS);
    }
  }

  lemma {:induction false} SomeBit(b: nat, n: nat) returns (p: nat)
    requires 0 < b < Pow2(n)
    ensures p < n && Has(b, p)
  {
    if b % 2 == 1 {
      p := 0;
    } else {
      p := SomeBit(b / 2, n - 1);
      p := p + 1;
    }
  }
}
