/** Lists of task identifiers kept in order of priority.

    A list is searched the way the kernel walks its doubly linked queues: from the front, stopping at
    the first entry that the newcomer has to precede. `pri` gives the priority of every task; a smaller
    number is a higher priority.
  */
module PriorityList {

  function At(pri: seq<nat>, t: nat): nat {
    if t < |pri| then pri[t] else 0
  }

  predicate NoDup<T(==)>(q: seq<T>) {
    forall i, j :: 0 <= i < j < |q| ==> Apart(q, i, j)
  }

  predicate Apart<T(==)>(q: seq<T>, i: int, j: int)
    requires 0 <= i < |q| && 0 <= j < |q|
  {
    q[i] != q[j]
  }

  predicate Sorted(pri: seq<nat>, q: seq<nat>) {
    forall i, j :: 0 <= i < j < |q| ==> InOrder(pri, q, i, j)
  }

  predicate InOrder(pri: seq<nat>, q: seq<nat>, i: int, j: int)
    requires 0 <= i < |q| && 0 <= j < |q|
  {
    At(pri, q[i]) <= At(pri, q[j])
  }

  /** The number of leading entries that stay ahead of a newcomer of priority `p`: the walk stops at the
      first entry of strictly lower priority (or, with `front`, of equal or lower priority). */
  function Slot(pri: seq<nat>, q: seq<nat>, p: nat, front: bool): (k: nat)
    ensures k <= |q|
    ensures forall i :: 0 <= i < k ==> if front then At(pri, q[i]) < p else At(pri, q[i]) <= p
    ensures k < |q| ==> if front then p <= At(pri, q[k]) else p < At(pri, q[k])
  {
    if q == [] then 0
    else if (if front then p <= At(pri, q[0]) else p < At(pri, q[0])) then 0
    else 1 + Slot(pri, q[1..], p, front)
  }

  /** `t` joins the list behind its equals, or ahead of them with `front`. */
  function Insert(pri: seq<nat>, q: seq<nat>, t: nat, front: bool): seq<nat> {
    var k := Slot(pri, q, At(pri, t), front);
    q[..k] + [t] + q[k..]
  }

  function IndexOf<T(==)>(q: seq<T>, t: T): (k: nat)
    ensures k <= |q|
    ensures t !in q[..k]
    ensures k < |q| ==> q[k] == t
    ensures k < |q| <==> t in q
  {
    if q == [] || q[0] == t then 0 else 1 + IndexOf(q[1..], t)
  }

  function Remove<T(==)>(q: seq<T>, t: T): seq<T> {
    var k := IndexOf(q, t);
    if k < |q| then q[..k] + q[k+1..] else q
  }

  /** The stopping point of the walk is the only one with its two bounds. */
  lemma SlotUnique(pri: seq<nat>, q: seq<nat>, p: nat, front: bool, k: nat)
    requires k <= |q|
    requires forall i :: 0 <= i < k ==> if front then At(pri, q[i]) < p else At(pri, q[i]) <= p
    requires k < |q| ==> if front then p <= At(pri, q[k]) else p < At(pri, q[k])
    ensures Slot(pri, q, p, front) == k
  {
  }

  /** Only the priorities of the entries matter. */
  lemma SlotFrame(pri: seq<nat>, pri': seq<nat>, q: seq<nat>, p: nat, front: bool)
    requires forall x :: x in q ==> At(pri, x) == At(pri', x)
    ensures Slot(pri, q, p, front) == Slot(pri', q, p, front)
  {
    var k := Slot(pri', q, p, front);
    assert forall i :: 0 <= i < |q| ==> q[i] in q;
    SlotUnique(pri, q, p, front, k);
  }

  /** The entries of a list with `t` put in at position `k`. */
  lemma Spliced<T>(q: seq<T>, t: T, k: nat)
    requires k <= |q|
    ensures var r := q[..k] + [t] + q[k..];
      && |r| == |q| + 1 && r[k] == t
      && (forall i :: 0 <= i < k ==> r[i] == q[i])
      && (forall i :: k < i < |r| ==> r[i] == q[i - 1])
      && (forall x :: x in r <==> x == t || x in q)
  {
    var r := q[..k] + [t] + q[k..];
    assert q == q[..k] + q[k..];
  }

  lemma InsertFacts(pri: seq<nat>, q: seq<nat>, t: nat, front: bool)
    requires NoDup(q) && Sorted(pri, q) && t !in q
    ensures var r := Insert(pri, q, t, front);
      && NoDup(r) && Sorted(pri, r) && |r| == |q| + 1
      && (forall x :: x in r <==> x == t || x in q)
  {
    var k := Slot(pri, q, At(pri, t), front);
    var r := Insert(pri, q, t, front);
    Spliced(q, t, k);
    forall i, j | 0 <= i < j < |r| ensures Apart(r, i, j) && InOrder(pri, r, i, j) {
      if i != k && j != k {
        var i', j' := if i < k then i else i - 1, if j < k then j else j - 1;
        assert Apart(q, i', j') && InOrder(pri, q, i', j');
      } else if j == k {
        assert r[i] == q[i] && q[i] in q;
      } else {
        assert r[j] == q[j - 1] && q[j - 1] in q;
        assert k < j - 1 ==> InOrder(pri, q, k, j - 1);
      }
    }
  }

  /** A newcomer at the end keeps a list free of repetitions. */
  lemma AppendFacts<T>(q: seq<T>, t: T)
    requires NoDup(q) && t !in q
    ensures NoDup(q + [t]) && forall x :: x in q + [t] <==> x == t || x in q
  {
    var r := q + [t];
    forall i, j | 0 <= i < j < |r| ensures Apart(r, i, j) {
      assert j < |q| ==> Apart(q, i, j);
      assert r[i] == q[i] && q[i] in q;
    }
  }

  lemma RemoveFacts<T>(q: seq<T>, t: T)
    requires NoDup(q)
    ensures var r := Remove(q, t);
      && NoDup(r) && (forall x :: x in r <==> x in q && x != t)
      && (t in q ==> |r| == |q| - 1) && (t !in q ==> r == q)
  {
    var k := IndexOf(q, t);
    var r := Remove(q, t);
    if k < |q| {
      forall i, j | 0 <= i < j < |r| ensures Apart(r, i, j) {
        assert Apart(q, if i < k then i else i + 1, if j < k then j else j + 1);
      }
      forall x ensures x in r <==> x in q && x != t {
        if x in r {
          var i :| 0 <= i < |r| && r[i] == x;
          assert if i < k then Apart(q, i, k) else Apart(q, k, i + 1);
        }
      }
    }
  }

  lemma RemoveSorted(pri: seq<nat>, q: seq<nat>, t: nat)
    requires Sorted(pri, q)
    ensures Sorted(pri, Remove(q, t))
  {
    var k := IndexOf(q, t);
    var r := Remove(q, t);
    if k < |q| {
      forall i, j | 0 <= i < j < |r| ensures InOrder(pri, r, i, j) {
        assert InOrder(pri, q, if i < k then i else i + 1, if j < k then j else j + 1);
      }
    }
  }

  /** Order is a matter of the priorities of the entries only. */
  lemma SortedFrame(pri: seq<nat>, pri': seq<nat>, q: seq<nat>)
    requires Sorted(pri, q) && forall x :: x in q ==> At(pri, x) == At(pri', x)
    ensures Sorted(pri', q)
  {
    forall i, j | 0 <= i < j < |q| ensures InOrder(pri', q, i, j) {
      assert InOrder(pri, q, i, j);
      assert q[i] in q && q[j] in q;
    }
  }

  lemma SomeIn<T>(q: seq<T>)
    ensures q == [] || exists x :: x in q
  {
    if q != [] { assert q[0] in q; }
  }

  /** A newcomer better than the head goes first. */
  lemma InsertFirst(pri: seq<nat>, q: seq<nat>, t: nat)
    requires q != [] ==> At(pri, t) <= At(pri, q[0])
    ensures Insert(pri, q, t, true) == [t] + q
  {}

  // ---------- who is ahead of whom ----------

  ghost predicate Before<T>(q: seq<T>, a: T, b: T) {
    exists i, j :: 0 <= i < j < |q| && q[i] == a && q[j] == b
  }

  lemma BeforeRemove<T>(q: seq<T>, t: T, a: T, b: T)
    requires NoDup(q) && Before(Remove(q, t), a, b)
    ensures Before(q, a, b) && a != t && b != t
  {
    RemoveFacts(q, t);
    var k := IndexOf(q, t);
    var r := Remove(q, t);
    var i, j :| 0 <= i < j < |r| && r[i] == a && r[j] == b;
    assert r[i] in r && r[j] in r;
    if k < |q| {
      var i', j' := if i < k then i else i + 1, if j < k then j else j + 1;
      assert q[i'] == a && q[j'] == b;
    }
  }

  lemma BeforeInsert(pri: seq<nat>, q: seq<nat>, t: nat, front: bool, a: nat, b: nat)
    requires NoDup(q) && Sorted(pri, q) && t !in q && Before(Insert(pri, q, t, front), a, b)
    ensures
      || (a != t && b != t && Before(q, a, b))
      || (a == t && b in q && if front then At(pri, t) <= At(pri, b) else At(pri, t) < At(pri, b))
      || (b == t && a in q && if front then At(pri, a) < At(pri, t) else At(pri, a) <= At(pri, t))
  {
    InsertFacts(pri, q, t, front);
    var k := Slot(pri, q, At(pri, t), front);
    var r := Insert(pri, q, t, front);
    Spliced(q, t, k);
    var i, j :| 0 <= i < j < |r| && r[i] == a && r[j] == b;
    if i != k && j != k {
      var i', j' := if i < k then i else i - 1, if j < k then j else j - 1;
      assert q[i'] == a && q[j'] == b;
      assert q[i'] in q && q[j'] in q;
    } else if i == k {
      assert q[j - 1] == b && q[j - 1] in q;
      assert k < j - 1 ==> InOrder(pri, q, k, j - 1);
    } else {
      assert q[i] == a && q[i] in q;
    }
  }

  lemma BeforeTotal<T>(q: seq<T>, a: T, b: T)
    requires a in q && b in q && a != b
    ensures Before(q, a, b) || Before(q, b, a)
  {
    var i :| 0 <= i < |q| && q[i] == a;
    var j :| 0 <= j < |q| && q[j] == b;
    assert if i < j then Before(q, a, b) else Before(q, b, a);
  }

  lemma BeforeSorted(pri: seq<nat>, q: seq<nat>, a: nat, b: nat)
    requires Sorted(pri, q) && Before(q, a, b)
    ensures At(pri, a) <= At(pri, b) && a in q && b in q
  {
    var i, j :| 0 <= i < j < |q| && q[i] == a && q[j] == b;
    assert InOrder(pri, q, i, j);
  }

  lemma NoneBeforeHead<T>(q: seq<T>, a: T, b: T)
    requires NoDup(q) && Before(q, a, b)
    ensures b != q[0]
  {
    var i, j :| 0 <= i < j < |q| && q[i] == a && q[j] == b;
    assert Apart(q, 0, j);
  }
}
