/** A binary heap of events with links back from every event to its node.

    Nodes are numbered from 1; the parent of node `i` is `i / 2`. A node that is free for the moment is
    treated as if the event on its way there were in it already: `f` is the heap and `nd` the links with
    that event put in.
  */
module TimeHeap {

  function Key(key: seq<int>, e: nat): int { if e < |key| then key[e] else 0 }

  /** Every node leads to an event that leads back to it. */
  ghost predicate Linked(f: seq<nat>, last: nat, nd: seq<nat>) {
    last < |f| && forall i: nat :: LinkAt(f, last, nd, i)
  }

  ghost predicate LinkAt(f: seq<nat>, last: nat, nd: seq<nat>, i: nat)
    requires last < |f|
  {
    1 <= i <= last ==> f[i] < |nd| && nd[f[i]] == i
  }

  /** The event is in the heap. */
  predicate IsIn(f: seq<nat>, last: nat, nd: seq<nat>, e: nat) {
    e < |nd| && 1 <= nd[e] <= last && last < |f| && f[nd[e]] == e
  }

  ghost predicate SameMembers(f: seq<nat>, nd: seq<nat>, f1: seq<nat>, nd1: seq<nat>, last: nat) {
    forall x: nat :: IsIn(f1, last, nd1, x) <==> IsIn(f, last, nd, x)
  }

  ghost predicate EdgeAt(f: seq<nat>, last: nat, key: seq<int>, i: nat)
    requires last < |f|
  {
    2 <= i <= last ==> Key(key, f[i / 2]) <= Key(key, f[i])
  }

  ghost predicate Ordered(f: seq<nat>, last: nat, key: seq<int>) {
    last < |f| && forall i: nat :: EdgeAt(f, last, key, i)
  }

  /** In order but for node `p`, which may be earlier than its parent. */
  ghost predicate OrderedUp(f: seq<nat>, last: nat, key: seq<int>, p: nat) {
    && 1 <= p <= last < |f|
    && (forall i: nat :: i != p ==> EdgeAt(f, last, key, i))
    && (forall i: nat :: SkipAt(f, last, key, p, i))
  }

  /** In order but for node `p`, which may be later than its children. */
  ghost predicate OrderedDown(f: seq<nat>, last: nat, key: seq<int>, p: nat) {
    && 1 <= p <= last < |f|
    && (forall i: nat :: i / 2 != p ==> EdgeAt(f, last, key, i))
    && (forall i: nat :: SkipAt(f, last, key, p, i))
  }

  /** A child of node `p` is not earlier than the parent of `p`. */
  ghost predicate SkipAt(f: seq<nat>, last: nat, key: seq<int>, p: nat, i: nat)
    requires p <= last < |f|
  {
    2 <= p && i / 2 == p && i <= last ==> Key(key, f[p / 2]) <= Key(key, f[i])
  }

  // ---------- the top ----------

  lemma {:induction false} TopIsFirst(f: seq<nat>, last: nat, key: seq<int>, i: nat)
    requires Ordered(f, last, key) && 1 <= i <= last
    ensures Key(key, f[1]) <= Key(key, f[i])
  {
    if i > 1 {
      assert EdgeAt(f, last, key, i);
      TopIsFirst(f, last, key, i / 2);
    }
  }

  // ---------- two nodes change places ----------

  function SwapNodes(f: seq<nat>, p: nat, q: nat): seq<nat>
    requires p < |f| && q < |f|
  {
    f[p := f[q]][q := f[p]]
  }

  function SwapLinks(f: seq<nat>, nd: seq<nat>, p: nat, q: nat): seq<nat>
    requires p < |f| && q < |f| && f[p] < |nd| && f[q] < |nd|
  {
    nd[f[q] := p][f[p] := q]
  }

  lemma SwapKeeps(f: seq<nat>, last: nat, nd: seq<nat>, p: nat, q: nat)
    requires Linked(f, last, nd) && 1 <= p <= last && 1 <= q <= last && p != q
    ensures f[p] < |nd| && f[q] < |nd|
    ensures Linked(SwapNodes(f, p, q), last, SwapLinks(f, nd, p, q))
    ensures SameMembers(f, nd, SwapNodes(f, p, q), SwapLinks(f, nd, p, q), last)
  {
    assert LinkAt(f, last, nd, p) && LinkAt(f, last, nd, q);
    var f1, nd1 := SwapNodes(f, p, q), SwapLinks(f, nd, p, q);
    forall i: nat ensures LinkAt(f1, last, nd1, i) { assert LinkAt(f, last, nd, i); }
  }

  /** A later parent comes down to node `p`. */
  lemma UpStep(f: seq<nat>, last: nat, key: seq<int>, p: nat)
    requires OrderedUp(f, last, key, p) && p > 1 && Key(key, f[p]) < Key(key, f[p / 2])
    ensures OrderedUp(SwapNodes(f, p, p / 2), last, key, p / 2)
  {
    var q := p / 2;
    var f1 := SwapNodes(f, p, q);
    forall i: nat | i != q ensures EdgeAt(f1, last, key, i) {
      assert SkipAt(f, last, key, p, i);
      assert i != p ==> EdgeAt(f, last, key, i);
    }
    forall i: nat ensures SkipAt(f1, last, key, q, i) {
      assert EdgeAt(f, last, key, q);
      assert i != p ==> EdgeAt(f, last, key, i);
    }
  }

  lemma UpDone(f: seq<nat>, last: nat, key: seq<int>, p: nat)
    requires OrderedUp(f, last, key, p) && (p > 1 ==> Key(key, f[p / 2]) <= Key(key, f[p]))
    ensures Ordered(f, last, key)
  {
    forall i: nat ensures EdgeAt(f, last, key, i) { assert i != p ==> EdgeAt(f, last, key, i); }
  }

  /** The earlier child `c` comes up to node `p`. */
  lemma DownStep(f: seq<nat>, last: nat, key: seq<int>, p: nat, c: nat)
    requires OrderedDown(f, last, key, p) && 2 <= c <= last && c / 2 == p && Key(key, f[c]) < Key(key, f[p])
    requires forall i: nat :: i / 2 == p && i <= last && 2 <= i ==> Key(key, f[c]) <= Key(key, f[i])
    ensures OrderedDown(SwapNodes(f, p, c), last, key, c)
  {
    var f1 := SwapNodes(f, p, c);
    forall i: nat | i / 2 != c ensures EdgeAt(f1, last, key, i) {
      assert SkipAt(f, last, key, p, i) && SkipAt(f, last, key, p, c);
      assert i / 2 != p ==> EdgeAt(f, last, key, i);
    }
    forall i: nat ensures SkipAt(f1, last, key, c, i) {
      assert i / 2 != p ==> EdgeAt(f, last, key, i);
    }
  }

  lemma DownDone(f: seq<nat>, last: nat, key: seq<int>, p: nat)
    requires OrderedDown(f, last, key, p)
    requires forall i: nat :: i / 2 == p && i <= last && 2 <= i ==> Key(key, f[p]) <= Key(key, f[i])
    ensures Ordered(f, last, key)
  {
    forall i: nat ensures EdgeAt(f, last, key, i) { assert i / 2 != p ==> EdgeAt(f, last, key, i); }
  }

  // ---------- one event more, one event less ----------

  /** A free node at the end, for an event that is not in the heap. */
  lemma Appended(f: seq<nat>, last: nat, nd: seq<nat>, key: seq<int>, e: nat)
    requires Linked(f, last, nd) && Ordered(f, last, key) && last + 1 < |f| && e < |nd| && !IsIn(f, last, nd, e)
    ensures Linked(f[last + 1 := e], last + 1, nd[e := last + 1])
    ensures OrderedUp(f[last + 1 := e], last + 1, key, last + 1)
    ensures forall x: nat :: IsIn(f[last + 1 := e], last + 1, nd[e := last + 1], x) <==> x == e || IsIn(f, last, nd, x)
  {
    var n := last + 1;
    var f1, nd1 := f[n := e], nd[e := n];
    forall i: nat ensures LinkAt(f1, n, nd1, i) { assert LinkAt(f, last, nd, i); }
    forall i: nat ensures (i != n ==> EdgeAt(f1, n, key, i)) && SkipAt(f1, n, key, n, i) {
      assert EdgeAt(f, last, key, i);
    }
  }

  /** `f1` and `nd1` are the heap without event `e`, the last event put in its place. */
  ghost predicate Without(f: seq<nat>, last: nat, nd: seq<nat>, f1: seq<nat>, nd1: seq<nat>, e: nat)
    requires 1 <= last
  {
    && Linked(f1, last - 1, nd1)
    && forall x: nat :: IsIn(f1, last - 1, nd1, x) <==> x != e && IsIn(f, last, nd, x)
  }

  lemma Vacated(f: seq<nat>, last: nat, nd: seq<nat>, e: nat)
    requires Linked(f, last, nd) && IsIn(f, last, nd, e)
    ensures 1 <= nd[e] <= last && f[last] < |nd|
    ensures nd[e] < last ==> Without(f, last, nd, f[nd[e] := f[last]], nd[f[last] := nd[e]], e)
    ensures nd[e] == last ==> f[last] == e && Without(f, last, nd, f, nd, e)
  {
    var p, l := nd[e], f[last];
    assert LinkAt(f, last, nd, last);
    var f1, nd1 := if p < last then f[p := l] else f, if p < last then nd[l := p] else nd;
    var n := last - 1;
    forall i: nat ensures LinkAt(f1, n, nd1, i) { assert LinkAt(f, last, nd, i); }
  }

  lemma VacatedUp(f: seq<nat>, last: nat, key: seq<int>, p: nat)
    requires Ordered(f, last, key) && 2 <= p < last && Key(key, f[last]) < Key(key, f[p / 2])
    ensures OrderedUp(f[p := f[last]], last - 1, key, p)
  {
    var f1 := f[p := f[last]];
    var n := last - 1;
    assert EdgeAt(f, last, key, p);
    forall i: nat ensures (i != p ==> EdgeAt(f1, n, key, i)) && SkipAt(f1, n, key, p, i) {
      assert EdgeAt(f, last, key, i);
    }
  }

  lemma VacatedDown(f: seq<nat>, last: nat, key: seq<int>, p: nat)
    requires Ordered(f, last, key) && 1 <= p < last && (p > 1 ==> Key(key, f[p / 2]) <= Key(key, f[last]))
    ensures OrderedDown(f[p := f[last]], last - 1, key, p)
  {
    var f1 := f[p := f[last]];
    var n := last - 1;
    assert EdgeAt(f, last, key, p);
    forall i: nat ensures (i / 2 != p ==> EdgeAt(f1, n, key, i)) && SkipAt(f1, n, key, p, i) {
      assert EdgeAt(f, last, key, i);
    }
  }

  lemma Shorter(f: seq<nat>, last: nat, key: seq<int>)
    requires Ordered(f, last, key) && 1 <= last
    ensures Ordered(f, last - 1, key)
  {
    var n := last - 1;
    forall i: nat ensures EdgeAt(f, n, key, i) { assert EdgeAt(f, last, key, i); }
  }

  // ---------- there is room for every event ----------

  function Used(f: seq<nat>, n: nat): set<nat>
    requires n < |f|
  {
    if n == 0 then {} else Used(f, n - 1) + {f[n]}
  }

  lemma {:induction false} UsedSize(f: seq<nat>, last: nat, nd: seq<nat>, n: nat)
    requires Linked(f, last, nd) && n <= last
    ensures |Used(f, n)| == n && forall x :: x in Used(f, n) ==> x < |nd| && 1 <= nd[x] <= n && IsIn(f, last, nd, x)
  {
    if n > 0 {
      UsedSize(f, last, nd, n - 1);
      assert LinkAt(f, last, nd, n);
    }
  }

  lemma Room(f: seq<nat>, last: nat, nd: seq<nat>, e: nat)
    requires Linked(f, last, nd) && e < |nd| && !IsIn(f, last, nd, e)
    ensures last < |nd|
  {
    UsedSize(f, last, nd, last);
    var all := Below(|nd|);
    assert Used(f, last) <= all - {e};
    SubsetSize(Used(f, last), all - {e});
  }

  function Below(n: nat): (all: set<nat>)
    ensures |all| == n && forall x: nat :: x in all <==> x < n
  {
    if n == 0 then {} else Below(n - 1) + {n - 1}
  }

  lemma {:induction false} SubsetSize<A>(a: set<A>, b: set<A>)
    requires a <= b
    ensures |a| <= |b|
  {
    if a != {} {
      var x :| x in a;
      SubsetSize(a - {x}, b - {x});
    }
  }
}
