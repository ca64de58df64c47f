/** The time events of the kernel: the heap of events, the 32-bit clock they are compared by, the timer that
    is armed for the earliest of them, and the 64-bit system time.

    Ghost fields keep the unbounded times behind the 32-bit words: `H` is the true count of the timer when
    it was last read, `C` the current event time, `M` the furthest it has ever been, `T` the true due times.
    The timer is an argument of every method that reads it: `now` is its true count, which the code sees
    modulo its period. No time passes between reading the timer and arming it.
  */
module TimeEvents {
  import opened EventTime
  import opened TimeHeap
  import opened TimeSpec

  ghost predicate DueOk(w: Word, t: int, c: int, m: int, step: nat) {
    w == Wrap(t) && c - BOUNDARY_MARGIN <= t <= m + step + TMAX_RELTIM
  }

  /** The due times of the events in the heap are the words of their true due times, overdue by no more than
      the margin and not further ahead than the longest relative time. */
  ghost predicate DueAt(f: seq<nat>, last: nat, evttim: seq<Word>, t: seq<int>, c: int, m: int, step: nat, i: nat) {
    1 <= i <= last < |f| ==> f[i] < |evttim| && f[i] < |t| && DueOk(evttim[f[i]], t[f[i]], c, m, step)
  }

  ghost predicate AllDue(f: seq<nat>, last: nat, evttim: seq<Word>, t: seq<int>, c: int, m: int, step: nat) {
    forall i: nat :: DueAt(f, last, evttim, t, c, m, step, i)
  }

  lemma SwapDue(f: seq<nat>, last: nat, evttim: seq<Word>, t: seq<int>, c: int, m: int, step: nat, p: nat, q: nat)
    requires AllDue(f, last, evttim, t, c, m, step) && 1 <= p <= last < |f| && 1 <= q <= last
    ensures AllDue(SwapNodes(f, p, q), last, evttim, t, c, m, step)
  {
    forall i: nat ensures DueAt(SwapNodes(f, p, q), last, evttim, t, c, m, step, i) {
      assert DueAt(f, last, evttim, t, c, m, step, if i == p then q else if i == q then p else i);
    }
  }

  /** The calls from number `mark` on were made in the order of their due times, none later than `floor`; no
      call was made before it was due. */
  ghost predicate LogOk(log: seq<Call>, mark: nat, floor: int) {
    && mark <= |log|
    && (forall i: nat :: PunctualAt(log, mark, floor, i))
    && (forall i: nat, j: nat :: SortedAt(log, mark, i, j))
  }

  ghost predicate PunctualAt(log: seq<Call>, mark: nat, floor: int, i: nat) {
    i < |log| ==> log[i].due <= log[i].c && (mark <= i ==> log[i].due <= floor)
  }

  ghost predicate SortedAt(log: seq<Call>, mark: nat, i: nat, j: nat) {
    mark <= i < j < |log| ==> log[i].due <= log[j].due
  }

  lemma LogGrows(log: seq<Call>, mark: nat, floor: int, x: Call)
    requires LogOk(log, mark, floor) && floor <= x.due <= x.c
    ensures LogOk(log + [x], mark, x.due)
  {
    var log1 := log + [x];
    forall i: nat ensures PunctualAt(log1, mark, x.due, i) { assert PunctualAt(log, mark, floor, i); }
    forall i: nat, j: nat ensures SortedAt(log1, mark, i, j) {
      assert SortedAt(log, mark, i, j) && PunctualAt(log, mark, floor, i);
    }
  }

  lemma LogRestarts(log: seq<Call>, mark: nat, floor: int, floor1: int)
    requires LogOk(log, mark, floor)
    ensures LogOk(log, |log|, floor1)
  {
    forall i: nat ensures PunctualAt(log, |log|, floor1, i) { assert PunctualAt(log, mark, floor, i); }
    forall i: nat, j: nat ensures SortedAt(log, |log|, i, j) {}
  }

  // ---------- the amount by which events are overdue ----------

  function Overdue(f: seq<nat>, last: nat, nd: seq<nat>, t: seq<int>, c: int, n: nat): nat {
    if n == 0 then 0 else Overdue(f, last, nd, t, c, n - 1) + OverdueBy(f, last, nd, t, c, n - 1)
  }

  function OverdueBy(f: seq<nat>, last: nat, nd: seq<nat>, t: seq<int>, c: int, e: nat): nat {
    if IsIn(f, last, nd, e) && Key(t, e) <= c then c - Key(t, e) + 1 else 0
  }

  /** Nothing has changed but for event `e`, which is overdue by less than it was. */
  lemma {:induction false} OverdueLess(f: seq<nat>, last: nat, nd: seq<nat>, t: seq<int>,
                                       f1: seq<nat>, last1: nat, nd1: seq<nat>, t1: seq<int>, c: int, e: nat, n: nat)
    requires forall x: nat :: x != e ==> OverdueBy(f1, last1, nd1, t1, c, x) == OverdueBy(f, last, nd, t, c, x)
    requires OverdueBy(f1, last1, nd1, t1, c, e) < OverdueBy(f, last, nd, t, c, e)
    ensures if e < n then Overdue(f1, last1, nd1, t1, c, n) < Overdue(f, last, nd, t, c, n)
            else Overdue(f1, last1, nd1, t1, c, n) == Overdue(f, last, nd, t, c, n)
  {
    if n > 0 { OverdueLess(f, last, nd, t, f1, last1, nd1, t1, c, e, n - 1); }
  }

  function Min(a: int, b: int): int { if a <= b then a else b }

  /** An event that is not in the heap may get another due time. */
  lemma DueElsewhere(f: seq<nat>, last: nat, nd: seq<nat>, evttim: seq<Word>, t: seq<int>, c: int, m: int, step: nat, e: nat, w: Word, d: int)
    requires Linked(f, last, nd) && Ordered(f, last, t) && AllDue(f, last, evttim, t, c, m, step)
    requires e < |nd| == |t| == |evttim| && !IsIn(f, last, nd, e)
    ensures Ordered(f, last, t[e := d]) && AllDue(f, last, evttim[e := w], t[e := d], c, m, step)
  {
    var t1, ev1 := t[e := d], evttim[e := w];
    forall i: nat ensures EdgeAt(f, last, t1, i) && DueAt(f, last, ev1, t1, c, m, step, i) {
      assert EdgeAt(f, last, t, i) && DueAt(f, last, evttim, t, c, m, step, i);
      assert LinkAt(f, last, nd, i) && LinkAt(f, last, nd, i / 2);
    }
  }

  /** No event in the heap is due before `d`. */
  ghost predicate NoneBefore(f: seq<nat>, last: nat, t: seq<int>, d: int) {
    last < |f| && forall i: nat :: LaterAt(f, last, t, d, i)
  }

  ghost predicate LaterAt(f: seq<nat>, last: nat, t: seq<int>, d: int, i: nat)
    requires last < |f|
  {
    1 <= i <= last ==> d <= Key(t, f[i])
  }

  /** The clock has moved on to `c1`, and no event is overdue by more than the margin. */
  lemma DueLater(f: seq<nat>, last: nat, evttim: seq<Word>, t: seq<int>, c: int, m: int, step: nat, c1: int, m1: int)
    requires AllDue(f, last, evttim, t, c, m, step) && m <= m1 && NoneBefore(f, last, t, c1 - BOUNDARY_MARGIN)
    ensures AllDue(f, last, evttim, t, c1, m1, step)
  {
    forall i: nat ensures DueAt(f, last, evttim, t, c1, m1, step, i) {
      assert DueAt(f, last, evttim, t, c, m, step, i) && LaterAt(f, last, t, c1 - BOUNDARY_MARGIN, i);
    }
  }

  lemma NoneBeforeTop(f: seq<nat>, last: nat, t: seq<int>)
    requires Ordered(f, last, t) && last >= 1
    ensures NoneBefore(f, last, t, Key(t, f[1]))
  {
    forall i: nat ensures LaterAt(f, last, t, Key(t, f[1]), i) { if 1 <= i <= last { TopIsFirst(f, last, t, i); } }
  }

  lemma EarlierBound(f: seq<nat>, last: nat, t: seq<int>, d: int, d1: int)
    requires NoneBefore(f, last, t, d) && d1 <= d
    ensures NoneBefore(f, last, t, d1)
  {
    forall i: nat ensures LaterAt(f, last, t, d1, i) { assert LaterAt(f, last, t, d, i); }
  }

  lemma NoneBeforeElsewhere(f: seq<nat>, last: nat, nd: seq<nat>, t: seq<int>, d: int, e: nat, x: int)
    requires Linked(f, last, nd) && NoneBefore(f, last, t, d) && e < |nd| == |t| && !IsIn(f, last, nd, e)
    ensures NoneBefore(f, last, t[e := x], d)
  {
    var t1 := t[e := x];
    forall i: nat ensures LaterAt(f, last, t1, d, i) { assert LaterAt(f, last, t, d, i) && LinkAt(f, last, nd, i); }
  }

  /** A bound for all events of a heap bounds all of a heap with other members, if it bounds those. */
  lemma NoneBeforeMembers(f: seq<nat>, last: nat, nd: seq<nat>, f1: seq<nat>, last1: nat, nd1: seq<nat>, t: seq<int>, d: int, e: nat)
    requires Linked(f, last, nd) && NoneBefore(f, last, t, d) && Linked(f1, last1, nd1)
    requires forall x: nat :: IsIn(f1, last1, nd1, x) ==> x == e || IsIn(f, last, nd, x)
    requires IsIn(f1, last1, nd1, e) ==> d <= Key(t, e)
    ensures NoneBefore(f1, last1, t, d)
  {
    forall i: nat ensures LaterAt(f1, last1, t, d, i) {
      assert LinkAt(f1, last1, nd1, i);
      if 1 <= i <= last1 {
        var x := f1[i];
        assert IsIn(f1, last1, nd1, x);
        if x != e { assert IsIn(f, last, nd, x) && LaterAt(f, last, t, d, nd[x]); }
      }
    }
  }

  /** Comparing due times of events in the heap is comparing their true due times. */
  lemma CompareTrue(w1: Word, t1: int, w2: Word, t2: int, c: int, m: int, step: nat, boundary: Word)
    requires DueOk(w1, t1, c, m, step) && DueOk(w2, t2, c, m, step) && boundary == Wrap(c - BOUNDARY_MARGIN)
    requires c <= m <= c + MAX_LAG && step <= MAX_TSTEP
    ensures EvttimLt(w1, w2, boundary) <==> t1 < t2
    ensures EvttimLe(w1, w2, boundary) <==> t1 <= t2
  {
    WindowIsWideEnough(t1, c, m, step);
    WindowIsWideEnough(t2, c, m, step);
    OrderIsTrue(t1, t2, c - BOUNDARY_MARGIN);
  }

  /** When the events in the heap are due. */
  function Dues(f: seq<nat>, last: nat, nd: seq<nat>, t: seq<int>): map<nat, int> {
    map e: nat | e < |t| && IsIn(f, last, nd, e) :: t[e]
  }

  lemma DuesWith(f: seq<nat>, last: nat, nd: seq<nat>, t: seq<int>, f1: seq<nat>, last1: nat, nd1: seq<nat>, t1: seq<int>, e: nat)
    requires e < |t| == |t1| && forall x: nat :: x < |t| && x != e ==> t1[x] == t[x]
    requires forall x: nat :: IsIn(f1, last1, nd1, x) <==> x == e || IsIn(f, last, nd, x)
    ensures Dues(f1, last1, nd1, t1) == Dues(f, last, nd, t)[e := t1[e]]
  {}

  lemma DuesWithout(f: seq<nat>, last: nat, nd: seq<nat>, t: seq<int>, f1: seq<nat>, last1: nat, nd1: seq<nat>, e: nat)
    requires forall x: nat :: IsIn(f1, last1, nd1, x) <==> x != e && IsIn(f, last, nd, x)
    ensures Dues(f1, last1, nd1, t) == Dues(f, last, nd, t) - {e}
  {}

  class TimeEvents {
    const kind: seq<Kind>
    const period: nat
    const step: nat
    const bound: nat

    /** `heap[1..last]` is the heap, `node` leads from an event to its node, `evttim` is when it is due. */
    const heap: array<nat>
    var last: nat
    var node: seq<nat>
    var evttim: seq<Word>

    var boundary: Word
    var current: Word
    var monotonic: Word
    var hrtcnt: Word
    var offset: int
    var inSignal: bool

    ghost var H: nat
    ghost var C: int
    ghost var M: int
    ghost var T: seq<int>

    /** The system time is this far ahead of `M`. */
    ghost var K: int

    /** When the timer interrupt comes, and whether it is pending. */
    ghost var deadline: int
    ghost var pending: bool

    /** No event has been called back that was due later, unless the clock has been set back since. */
    ghost var floor: int

    /** All call backs, and how many had been made when the clock was last set back. */
    ghost var log: seq<Call>
    ghost var mark: nat

    /** `cycsta` and `almsta`: the event is started. When it was, and how often it has come since. */
    var active: seq<bool>
    ghost var birth: seq<Birth>
    ghost var times: seq<nat>

    // ---------- what holds ----------

    ghost predicate Frame()
      reads `last, `node, `evttim, `T
    {
      && heap.Length == |kind| + 1 && |node| == |evttim| == |T| == |kind|
      && (forall e :: 0 <= e < |kind| && kind[e].Cyclic? ==> 1 <= kind[e].cyctim <= TMAX_RELTIM && kind[e].cycphs <= TMAX_RELTIM)
      && last <= |kind| && 0 < period <= U32 && step <= MAX_TSTEP
    }

    ghost predicate Bounds()
      reads `boundary, `C, `M
    {
      C <= M <= C + MAX_LAG && boundary == Wrap(C - BOUNDARY_MARGIN)
    }

    /** What the data stand for. */
    ghost function State(): TimeSpec.State
      reads this, heap
    {
      TimeSpec.State(kind, step, H, C, M, K, Dues(heap[..], last, node, T), birth, times, log)
    }

    // ---------- the search for a place in the heap ----------

    /** Moves the free node `p0` up to where event `e`, due at `t`, belongs. */
    method Up(p0: nat, t: Word, ghost e: nat) returns (p: nat)
      requires Frame() && Bounds() && 1 <= p0 <= last && e < |T| && DueOk(t, T[e], C, M, step)
      requires Linked(heap[..][p0 := e], last, node[e := p0]) && OrderedUp(heap[..][p0 := e], last, T, p0)
      requires AllDue(heap[..][p0 := e], last, evttim[e := t], T, C, M, step)
      modifies heap, `node
      ensures Frame() && 1 <= p <= p0
      ensures Linked(heap[..][p := e], last, node[e := p]) && Ordered(heap[..][p := e], last, T)
      ensures AllDue(heap[..][p := e], last, evttim[e := t], T, C, M, step)
      ensures SameMembers(old(heap[..])[p0 := e], old(node)[e := p0], heap[..][p := e], node[e := p], last)
      ensures p > 1 ==> heap[1] == old(heap[1])
      ensures p == 1 < p0 ==> T[e] < Key(T, old(heap[1]))
    {
      ghost var f0, nd0, ev := heap[..][p0 := e], node[e := p0], evttim[e := t];
      p := p0;
      while p > 1
        invariant Frame() && 1 <= p <= p0
        invariant if p > 1 then heap[1] == old(heap[1]) else p < p0 ==> T[e] < Key(T, old(heap[1]))
        invariant Linked(heap[..][p := e], last, node[e := p]) && OrderedUp(heap[..][p := e], last, T, p)
        invariant AllDue(heap[..][p := e], last, ev, T, C, M, step)
        invariant SameMembers(f0, nd0, heap[..][p := e], node[e := p], last)
      {
        ghost var f, nd := heap[..][p := e], node[e := p];
        var parent := p / 2;
        assert DueAt(f, last, ev, T, C, M, step, parent);
        assert LinkAt(f, last, nd, parent) && LinkAt(f, last, nd, p);
        CompareTrue(evttim[heap[parent]], T[heap[parent]], t, T[e], C, M, step, boundary);
        if EvttimLe(evttim[heap[parent]], t, boundary) {
          break;
        }
        SwapKeeps(f, last, nd, p, parent);
        UpStep(f, last, T, p);
        SwapDue(f, last, ev, T, C, M, step, p, parent);
        heap[p] := heap[parent];
        node := node[heap[p] := p];
        assert heap[..][parent := e] == SwapNodes(f, p, parent);
        assert node[e := parent] == SwapLinks(f, nd, p, parent);
        p := parent;
      }
      UpDone(heap[..][p := e], last, T, p);
    }

    /** Moves the free node `p0` down to where event `e`, due at `t`, belongs. */
    method Down(p0: nat, t: Word, ghost e: nat) returns (p: nat)
      requires Frame() && Bounds() && 1 <= p0 <= last && e < |T| && DueOk(t, T[e], C, M, step)
      requires Linked(heap[..][p0 := e], last, node[e := p0]) && OrderedDown(heap[..][p0 := e], last, T, p0)
      requires AllDue(heap[..][p0 := e], last, evttim[e := t], T, C, M, step)
      modifies heap, `node
      ensures Frame() && p0 <= p <= last
      ensures Linked(heap[..][p := e], last, node[e := p]) && Ordered(heap[..][p := e], last, T)
      ensures AllDue(heap[..][p := e], last, evttim[e := t], T, C, M, step)
      ensures SameMembers(old(heap[..])[p0 := e], old(node)[e := p0], heap[..][p := e], node[e := p], last)
      ensures forall i :: 0 <= i < p0 ==> heap[i] == old(heap[i])
    {
      ghost var f0, nd0, ev := heap[..][p0 := e], node[e := p0], evttim[e := t];
      p := p0;
      while 2 * p <= last
        invariant Frame() && p0 <= p <= last
        invariant Linked(heap[..][p := e], last, node[e := p]) && OrderedDown(heap[..][p := e], last, T, p)
        invariant AllDue(heap[..][p := e], last, ev, T, C, M, step)
        invariant SameMembers(f0, nd0, heap[..][p := e], node[e := p], last)
        invariant forall i :: 0 <= i < p0 ==> heap[i] == old(heap[i])
        decreases last - p
      {
        ghost var f, nd := heap[..][p := e], node[e := p];
        var child := EarlierChild(p, f, nd, ev);
        assert DueAt(f, last, ev, T, C, M, step, child) && LinkAt(f, last, nd, child) && LinkAt(f, last, nd, p);
        CompareTrue(t, T[e], evttim[heap[child]], T[heap[child]], C, M, step, boundary);
        if EvttimLe(t, evttim[heap[child]], boundary) {
          DownDone(f, last, T, p);
          return;
        }
        SwapKeeps(f, last, nd, p, child);
        DownStep(f, last, T, p, child);
        SwapDue(f, last, ev, T, C, M, step, p, child);
        heap[p] := heap[child];
        node := node[heap[p] := p];
        assert heap[..][child := e] == SwapNodes(f, p, child);
        assert node[e := child] == SwapLinks(f, nd, p, child);
        p := child;
      }
      DownDone(heap[..][p := e], last, T, p);
    }

    /** The child of `p` that is due first. */
    method EarlierChild(p: nat, ghost f: seq<nat>, ghost nd: seq<nat>, ghost ev: seq<Word>) returns (child: nat)
      requires Frame() && Bounds() && 1 <= p && 2 * p <= last
      requires |f| == heap.Length && forall i: nat :: i < |f| && i != p ==> f[i] == heap[i]
      requires |ev| == |evttim| && f[p] < |ev| && forall x: nat :: x < |ev| && x != f[p] ==> ev[x] == evttim[x]
      requires Linked(f, last, nd) && |nd| == |node| && AllDue(f, last, ev, T, C, M, step)
      ensures 2 <= child <= last && child / 2 == p
      ensures forall i: nat :: i / 2 == p && i <= last && 2 <= i ==> Key(T, f[child]) <= Key(T, f[i])
    {
      child := 2 * p;
      assert LinkAt(f, last, nd, p) && LinkAt(f, last, nd, child) && DueAt(f, last, ev, T, C, M, step, child);
      if child + 1 <= last {
        assert LinkAt(f, last, nd, child + 1) && DueAt(f, last, ev, T, C, M, step, child + 1);
        CompareTrue(evttim[heap[child + 1]], T[heap[child + 1]], evttim[heap[child]], T[heap[child]], C, M, step, boundary);
        if EvttimLt(evttim[heap[child + 1]], evttim[heap[child]], boundary) {
          child := child + 1;
        }
      }
    }

    // ---------- events in and out ----------

    ghost predicate Heap()
      reads `last, `node, `evttim, `T, `boundary, `C, `M, heap
    {
      && Frame() && Bounds() && Linked(heap[..], last, node) && Ordered(heap[..], last, T)
      && AllDue(heap[..], last, evttim, T, C, M, step)
    }

    predicate Registered(e: nat)
      reads `last, `node, heap
    {
      IsIn(heap[..], last, node, e)
    }

    method Insert(e: nat)
      requires Heap() && e < |kind| && !Registered(e) && DueOk(evttim[e], T[e], C, M, step)
      modifies heap, `node, `last
      ensures Heap() && last == old(last) + 1
      ensures forall x: nat :: Registered(x) <==> x == e || old(Registered(x))
      ensures node[e] == 1 || (last > 1 && heap[1] == old(heap[1]))
    {
      ghost var f, nd := heap[..], node;
      Room(f, last, nd, e);
      Appended(f, last, nd, T, e);
      last := last + 1;
      ghost var f0, nd0 := f[last := e], nd[e := last];
      forall i: nat ensures DueAt(f0, last, evttim, T, C, M, step, i) { assert DueAt(f, last - 1, evttim, T, C, M, step, i); }
      assert evttim[e := evttim[e]] == evttim;
      var p := Up(last, evttim[e], e);
      heap[p] := e;
      node := node[e := p];
    }

    /** The node of `e` is filled with the last event, which is moved to where it belongs. */
    method Delete(e: nat)
      requires Heap() && Registered(e)
      modifies heap, `node, `last
      ensures Heap() && last == old(last) - 1
      ensures forall x: nat :: Registered(x) <==> x != e && old(Registered(x))
      ensures old(node)[e] != 1 ==> last >= 1 && heap[1] == old(heap[1])
    {
      ghost var f, nd, n := heap[..], node, last;
      Vacated(f, n, nd, e);
      Shorter(f, n, T);
      var p := node[e];
      last := last - 1;
      forall i: nat ensures DueAt(f, last, evttim, T, C, M, step, i) { assert DueAt(f, n, evttim, T, C, M, step, i); }
      if last < 1 {
        return;
      }
      var l := heap[last + 1];
      assert DueAt(f, n, evttim, T, C, M, step, n) && DueAt(f, n, evttim, T, C, M, step, p / 2);
      if p > 1 { CompareTrue(evttim[l], T[l], evttim[heap[p / 2]], T[heap[p / 2]], C, M, step, boundary); }
      if p > last {
        assert EdgeAt(f, n, T, p);
        return;
      }
      ghost var f0, nd0 := f[p := l], nd[l := p];
      forall i: nat ensures DueAt(f0, last, evttim, T, C, M, step, i) {
        assert DueAt(f, n, evttim, T, C, M, step, if i == p then n else i);
      }
      assert evttim[l := evttim[l]] == evttim;
      if p > 1 && EvttimLt(evttim[l], evttim[heap[p / 2]], boundary) {
        VacatedUp(f, n, T, p);
        TopIsFirst(f, n, T, n);
        p := Up(p, evttim[l], l);
      } else {
        VacatedDown(f, n, T, p);
        p := Down(p, evttim[l], l);
      }
      heap[p] := l;
      node := node[l := p];
    }

    // ---------- the clock ----------

    /** The words of the clock stand for the true times, and the 64-bit offset for the rest of the system time. */
    ghost predicate Clock()
      reads `current, `monotonic, `hrtcnt, `offset, `H, `C, `M, `K
    {
      && 0 < period <= U32 && current == Wrap(C) && monotonic == Wrap(M) && hrtcnt == H % period
      && offset == Wrap64(K + M - Wrap(M))
    }

    /** The timer can tell how far it has moved, and no event is overdue by more than the margin. */
    ghost predicate Timely(now: nat)
      reads `last, `T, `H, `C, heap
    {
      H <= now < H + period && last < heap.Length && NoneBefore(heap[..], last, T, C + (now - H) - BOUNDARY_MARGIN)
    }

    method UpdateCurrentEvttim(now: nat)
      requires Heap() && Clock() && Timely(now)
      modifies `boundary, `current, `monotonic, `hrtcnt, `offset, `H, `C, `M
      ensures Heap() && Clock() && H == now && C == old(C) + (now - old(H)) && M == Max(old(M), C)
    {
      ghost var c1 := C + now - H;
      DueLater(heap[..], last, evttim, T, C, M, step, c1, Max(M, c1));
      var advance := ReadCounter(now);
      AdvanceWords(advance);
      H, C := now, c1;
    }

    /** How far the counter has moved since it was last read. */
    method ReadCounter(now: nat) returns (advance: Word)
      requires 0 < period <= U32 && hrtcnt == H % period && H <= now < H + period
      modifies `hrtcnt
      ensures hrtcnt == now % period && advance == now - H
    {
      AdvanceIsElapsed(H, now - H, period);
      var newHrtcnt := now % period;
      advance := HrtAdvance(hrtcnt, newHrtcnt, period);
      hrtcnt := newHrtcnt;
    }

    method AdvanceWords(advance: Word)
      requires current == Wrap(C) && monotonic == Wrap(M) && offset == Wrap64(K + M - Wrap(M)) && C <= M <= C + MAX_LAG
      modifies `boundary, `current, `monotonic, `offset, `M
      ensures current == Wrap(C + advance) && boundary == Wrap(C + advance - BOUNDARY_MARGIN)
      ensures M == Max(old(M), C + advance) && monotonic == Wrap(M) && offset == Wrap64(K + M - Wrap(M))
    {
      var previous := current;
      StepForward(C, advance);
      current := Add32(current, advance);
      StepBack(C + advance, BOUNDARY_MARGIN);
      boundary := Sub32(current, BOUNDARY_MARGIN);
      RaiseMonotonic(previous, advance, C);
    }

    /** The furthest event time follows the current one, and the upper half of the system time with it. */
    method RaiseMonotonic(previous: Word, advance: Word, ghost c0: int)
      requires monotonic == Wrap(M) && offset == Wrap64(K + M - Wrap(M))
      requires previous == Wrap(c0) && current == Wrap(c0 + advance) && c0 <= M <= c0 + MAX_LAG
      modifies `monotonic, `offset, `M
      ensures M == Max(old(M), c0 + advance) && monotonic == Wrap(M) && offset == Wrap64(K + M - Wrap(M))
    {
      TrueDifference(M, c0);
      if Sub32(monotonic, previous) < advance {
        Forward(M, c0 + advance, K);
        if current < monotonic {
          offset := (offset + U32) % U64;
        }
        monotonic := current;
        M := c0 + advance;
      }
    }

    /** What the offset becomes when the furthest time moves on. */
    lemma Forward(m: int, m': int, k: int)
      requires m < m' < m + U32
      ensures Wrap64(k + m' - Wrap(m')) ==
        if Wrap(m') < Wrap(m) then (Wrap64(k + m - Wrap(m)) + U32) % U64 else Wrap64(k + m - Wrap(m))
    {
      UpperHalf(m, m');
      Wrap64Add(k + m - Wrap(m), U32);
    }

    method SetTim(systim: int, now: nat)
      requires Heap() && Clock() && Timely(now) && 0 <= systim < U64
      modifies `boundary, `current, `monotonic, `hrtcnt, `offset, `H, `C, `M, `K
      ensures Heap() && Clock() && H == now && C == old(C) + (now - old(H)) && M == Max(old(M), C)
      ensures K + M == systim && State() == Read(old(State()), now).(k := systim - M)
    {
      UpdateCurrentEvttim(now);
      offset := (systim - monotonic) % U64;
      K := systim - M;
    }

    /** The system time is 2^64 turns aside the furthest event time ever reached, plus a constant. */
    method GetTim(now: nat) returns (systim: int)
      requires Heap() && Clock() && Timely(now)
      modifies `boundary, `current, `monotonic, `hrtcnt, `offset, `H, `C, `M
      ensures Heap() && Clock() && H == now && C == old(C) + (now - old(H)) && M == Max(old(M), C)
      ensures State() == Read(old(State()), now) && systim == SystemTime(State())
    {
      UpdateCurrentEvttim(now);
      Wrap64Add(K + M - Wrap(M), Wrap(M));
      systim := (offset + monotonic) % U64;
    }

    // ---------- the timer ----------

    /** When the earliest event falls due, as a count of the timer. */
    ghost function DueCount(): int
      requires 1 <= last < heap.Length && heap[1] < |T|
      reads `last, `T, `H, `C, heap
    {
      T[heap[1]] + (H - C)
    }

    /** The timer interrupt is pending or comes no later than the earliest event; and it comes before the
        timer has gone round. */
    ghost predicate Armed()
      reads `last, `T, `H, `C, `inSignal, `deadline, `pending, heap
    {
      && (!inSignal && 1 <= last < heap.Length && heap[1] < |T| ==> pending || deadline <= DueCount())
      && deadline <= H + bound
    }

    method SetHrtEvent()
      requires Heap() && Clock() && deadline <= H + bound
      modifies `deadline, `pending
      ensures deadline <= H + bound
      ensures last >= 1 ==> (heap[1] < |T| && (T[heap[1]] <= C ==> pending) && (pending || deadline <= DueCount()))
      ensures last >= 1 && T[heap[1]] > C ==> deadline == H + Min(T[heap[1]] - C, bound) && pending == old(pending)
      ensures last == 0 ==> deadline == H + bound && pending == old(pending)
    {
      if last < 1 {
        deadline := H + bound;
      } else {
        ghost var t := TopDue();
        var top := evttim[heap[1]];
        if EvttimLe(top, current, boundary) {
          pending := true;
        } else {
          TrueDifference(t, C);
          var hrt := Sub32(top, current);
          if hrt > bound {
            deadline := H + bound;
          } else {
            deadline := H + hrt;
          }
        }
      }
    }

    /** The top of the heap compared with the current time. */
    lemma TopDue() returns (t: int)
      requires Heap() && Clock() && last >= 1
      ensures heap[1] < |T| && heap[1] < |evttim| && t == T[heap[1]] && evttim[heap[1]] == Wrap(t)
      ensures EvttimLe(evttim[heap[1]], current, boundary) <==> t <= C
      ensures EvttimLe(Add32(evttim[heap[1]], TMAX_ADJTIM), current, boundary) <==> t + TMAX_ADJTIM <= C
      ensures t - C < U32
    {
      assert DueAt(heap[..], last, evttim, T, C, M, step, 1);
      t := T[heap[1]];
      WindowIsWideEnough(t, C, M, step);
      WindowIsWideEnough(C, C, M, step);
      OrderIsTrue(t, C, C - BOUNDARY_MARGIN);
      OrderIsTrue(t + TMAX_ADJTIM, C, C - BOUNDARY_MARGIN);
      StepForward(t, TMAX_ADJTIM);
    }

    // ---------- registering and removing events ----------

    /** Events are called back in the order of their due times: none is left that is due before the last one
        called back. */
    ghost predicate InOrder()
      reads `last, `T, `C, `floor, `log, `mark, heap
    {
      floor <= C && NoneBefore(heap[..], last, T, floor) && LogOk(log, mark, floor)
    }

    ghost predicate Valid()
      reads this, heap
    {
      Heap() && Clock() && Armed() && InOrder()
    }

    /** The clock is read; everything else stays as it is. */
    method ReadClock(now: nat)
      requires Valid() && Timely(now)
      modifies `boundary, `current, `monotonic, `hrtcnt, `offset, `H, `C, `M
      ensures Valid() && H == now && C == old(C) + (now - old(H)) && M == Max(old(M), C)
      ensures State() == Read(old(State()), now)
    {
      UpdateCurrentEvttim(now);
    }

    method TmevtbEnqueueReltim(e: nat, time: nat, now: nat)
      requires Valid() && Timely(now) && e < |kind| && !Registered(e) && time <= TMAX_RELTIM
      modifies heap, `node, `last, `evttim, `T, `deadline, `pending, `boundary, `current, `monotonic, `hrtcnt, `offset, `H, `C, `M
      ensures Valid() && H == now && C == old(C) + (now - old(H)) && M == Max(old(M), C)
      ensures T == old(T)[e := C + step + time]
      ensures forall x: nat :: Registered(x) <==> x == e || old(Registered(x))
    {
      ReadClock(now);
      SetDue(e, time);
      Register(e);
      Rearm(node[e] == 1);
    }

    /** The timer is armed anew when the earliest event is another one, except during `signal_time`. */
    method Rearm(atTop: bool)
      requires Heap() && Clock() && InOrder() && (inSignal || !atTop ==> Armed()) && deadline <= H + bound
      modifies `deadline, `pending
      ensures Valid()
    {
      if !inSignal && atTop {
        SetHrtEvent();
      }
    }

    /** The due time of an event that is not in the heap: a full step of the timer later than asked for. */
    method SetDue(e: nat, time: nat)
      requires Heap() && Clock() && Armed() && InOrder() && e < |kind| && !Registered(e) && time <= TMAX_RELTIM
      modifies `evttim, `T
      ensures Heap() && Clock() && Armed() && InOrder() && !Registered(e)
      ensures T == old(T)[e := C + step + time] && evttim == old(evttim)[e := Wrap(T[e])]
    {
      ghost var due := C + step + time;
      StepForward(C, step);
      StepForward(C + step, time);
      DueElsewhere(heap[..], last, node, evttim, T, C, M, step, e, Wrap(due), due);
      NoneBeforeElsewhere(heap[..], last, node, T, floor, e, due);
      assert LinkAt(heap[..], last, node, 1);
      evttim := evttim[e := Add32(Add32(current, step), time)];
      T := T[e := due];
    }

    /** `tmevtb_register` */
    method Register(e: nat)
      requires Heap() && InOrder() && Armed() && e < |kind| && !Registered(e)
      requires DueOk(evttim[e], T[e], C, M, step) && floor <= T[e]
      modifies heap, `node, `last
      ensures Heap() && InOrder() && (node[e] != 1 ==> Armed())
      ensures forall x: nat :: Registered(x) <==> x == e || old(Registered(x))
      ensures node[e] == 1 || (last > 1 && old(last) >= 1 && heap[1] == old(heap[1]))
    {
      ghost var f, nd, n := heap[..], node, last;
      Insert(e);
      forall x: nat | IsIn(heap[..], last, node, x) ensures x == e || IsIn(f, n, nd, x) { assert Registered(x); }
      NoneBeforeMembers(f, n, nd, heap[..], last, node, T, floor, e);
    }

    method TmevtbDequeue(e: nat, now: nat, ghost later: nat)
      requires Valid() && Timely(now) && Registered(e) && now <= later && Timely(later)
      modifies heap, `node, `last, `deadline, `pending, `boundary, `current, `monotonic, `hrtcnt, `offset, `H, `C, `M
      ensures Valid() && C - H == old(C - H) && old(H) <= H <= now && M == Max(old(M), C) && Timely(later)
      ensures forall x: nat :: Registered(x) <==> x != e && old(Registered(x))
    {
      var p := node[e];
      Unregister(e, later);
      if !inSignal && p == 1 {
        ReadAndRearm(now, later);
      }
    }

    method ReadAndRearm(now: nat, ghost later: nat)
      requires Heap() && Clock() && InOrder() && !inSignal && deadline <= H + bound && H <= now <= later && Timely(later)
      modifies `deadline, `pending, `boundary, `current, `monotonic, `hrtcnt, `offset, `H, `C, `M
      ensures Valid() && H == now && C - H == old(C - H) && M == Max(old(M), C) && Timely(later)
    {
      EarlierBound(heap[..], last, T, C + (later - H) - BOUNDARY_MARGIN, C + (now - H) - BOUNDARY_MARGIN);
      UpdateCurrentEvttim(now);
      Rearm(true);
    }

    method Unregister(e: nat, ghost now: nat)
      requires Heap() && Clock() && Armed() && InOrder() && Timely(now) && Registered(e)
      modifies heap, `node, `last
      ensures Heap() && Clock() && InOrder() && Timely(now) && (inSignal || old(node)[e] != 1 ==> Armed())
      ensures forall x: nat :: Registered(x) <==> x != e && old(Registered(x))
    {
      ghost var f, nd, n := heap[..], node, last;
      Delete(e);
      forall x: nat | IsIn(heap[..], last, node, x) ensures x != e && IsIn(f, n, nd, x) { assert Registered(x); }
      NoneBeforeMembers(f, n, nd, heap[..], last, node, T, floor, e);
      NoneBeforeMembers(f, n, nd, heap[..], last, node, T, C + (now - H) - BOUNDARY_MARGIN, e);
    }

    /** The relative time until an event is due, rounded down by a step of the timer. */
    method TmevtLefttim(e: nat, now: nat) returns (r: nat)
      requires Valid() && Timely(now) && Registered(e)
      modifies `boundary, `current, `monotonic, `hrtcnt, `offset, `H, `C, `M
      ensures Valid() && H == now && C == old(C) + (now - old(H)) && M == Max(old(M), C)
      ensures State() == Read(old(State()), now) && e < |T| && r == Max(0, T[e] - (C + step))
    {
      UpdateCurrentEvttim(now);
      assert DueAt(heap[..], last, evttim, T, C, M, step, node[e]);
      WindowIsWideEnough(T[e], C, M, step);
      WindowIsWideEnough(C + step, C, M, step);
      OrderIsTrue(T[e], C + step, C - BOUNDARY_MARGIN);
      StepForward(C, step);
      var ub := Add32(current, step);
      if EvttimLe(evttim[e], ub, boundary) {
        r := 0;
      } else {
        TrueDifference(T[e], C + step);
        r := Sub32(evttim[e], ub);
      }
    }

    // ---------- adjusting the clock ----------

    /** With the event time at `c` and the furthest one at `m`: an event is overdue by a whole adjustment, and the clock is to
        go forward, or the clock is a whole adjustment behind, and is to go back. */
    ghost predicate Barred(adjtim: int, c: int, m: int)
      reads `last, `node, `T, heap
    {
      || (adjtim > 0 && exists e: nat :: e < |T| && Registered(e) && c - T[e] >= 1_000_000)
      || (adjtim < 0 && m - c >= 1_000_000)
    }

    lemma RefusedIsBarred(adjtim: int)
      ensures Refused(State(), adjtim) <==> Barred(adjtim, C, M)
    {
      var s := State();
      if exists x :: x in s.due && s.due[x] + TMAX_ADJTIM <= s.c {
        var x :| x in s.due && s.due[x] + TMAX_ADJTIM <= s.c;
        assert x < |T| && Registered(x) && C - T[x] >= 1_000_000;
      }
      if exists e: nat :: e < |T| && Registered(e) && C - T[e] >= 1_000_000 {
        var e: nat :| e < |T| && Registered(e) && C - T[e] >= 1_000_000;
        assert e in s.due && s.due[e] + TMAX_ADJTIM <= s.c;
      }
    }

    /** A forward adjustment is refused while the earliest event is overdue by a whole adjustment, a backward
        one while the clock is a whole adjustment behind. */
    method CheckAdjtim(adjtim: int) returns (refused: bool)
      requires Heap() && Clock()
      ensures refused <==>
        || (adjtim > 0 && last >= 1 && Key(T, heap[1]) + TMAX_ADJTIM <= C)
        || (adjtim < 0 && M - C >= TMAX_ADJTIM)
      ensures refused <==> Refused(State(), adjtim)
      ensures refused <==> Barred(adjtim, C, M)
    {
      RefusedIsBarred(adjtim);
      if last >= 1 {
        ghost var t := TopDue();
        TopIsEarliest();
      }
      TrueDifference(M, C);
      if adjtim > 0 {
        return last >= 1 && EvttimLe(Add32(evttim[heap[1]], TMAX_ADJTIM), current, boundary);
      } else if adjtim < 0 {
        return Sub32(monotonic, current) >= TMAX_ADJTIM;
      }
      return false;
    }

    /** Refused or carried out; the events stay registered, and started. */
    method AdjTim(adjtim: int, now: nat) returns (ok: bool)
      requires Valid() && Timely(now) && TMIN_ADJTIM <= adjtim <= TMAX_ADJTIM
      modifies `boundary, `current, `monotonic, `hrtcnt, `offset, `H, `C, `M, `floor, `mark, `deadline, `pending
      ensures Valid() && (old(Started()) ==> Started())
      ensures H == now && C == old(C) + (now - old(H)) + (if ok then adjtim else 0)
      ensures ok <==> !old(Barred(adjtim, C + (now - H), Max(M, C + (now - H))))
      ensures State() == if ok then Adjusted(Read(old(State()), now), adjtim) else Read(old(State()), now)
      ensures floor == Min(old(floor), C) && (adjtim >= 0 ==> mark == old(mark))
    {
      ReadClock(now);
      var refused := CheckAdjtim(adjtim);
      if refused {
        return false;
      }
      Shift(adjtim);
      return true;
    }

    /** The clock is moved, and the timer armed anew. */
    method Shift(adjtim: int)
      requires Valid() && TMIN_ADJTIM <= adjtim <= TMAX_ADJTIM && !Refused(State(), adjtim)
      modifies `current, `boundary, `monotonic, `offset, `C, `M, `floor, `mark, `deadline, `pending
      ensures Valid() && State() == Adjusted(old(State()), adjtim)
      ensures floor == Min(old(floor), C) && (adjtim >= 0 ==> mark == old(mark))
    {
      NotRefused(adjtim);
      MoveClock(adjtim);
      Rearm(true);
    }

    lemma NotRefused(adjtim: int)
      requires Heap() && !Refused(State(), adjtim)
      ensures adjtim > 0 && last >= 1 ==> Key(T, heap[1]) + TMAX_ADJTIM > C
      ensures adjtim < 0 ==> M - C < TMAX_ADJTIM
    {
      if last >= 1 { TopIsEarliest(); }
    }

    method MoveClock(adjtim: int)
      requires Heap() && Clock() && InOrder() && TMIN_ADJTIM <= adjtim <= TMAX_ADJTIM
      requires adjtim > 0 && last >= 1 ==> Key(T, heap[1]) + TMAX_ADJTIM > C
      requires adjtim < 0 ==> M - C < TMAX_ADJTIM
      modifies `current, `boundary, `monotonic, `offset, `C, `M, `floor, `mark
      ensures Heap() && Clock() && InOrder()
      ensures C == old(C) + adjtim && M == Max(old(M), C) && floor == Min(old(floor), C)
      ensures adjtim >= 0 ==> mark == old(mark)
    {
      MoveTimes(adjtim);
      LogRestarts(log, mark, floor, Min(floor, C));
      floor, mark := Min(floor, C), if adjtim < 0 then |log| else mark;
    }

    method MoveTimes(adjtim: int)
      requires Heap() && Clock() && InOrder() && TMIN_ADJTIM <= adjtim <= TMAX_ADJTIM
      requires adjtim > 0 && last >= 1 ==> Key(T, heap[1]) + TMAX_ADJTIM > C
      requires adjtim < 0 ==> M - C < TMAX_ADJTIM
      modifies `current, `boundary, `monotonic, `offset, `C, `M
      ensures Heap() && Clock() && NoneBefore(heap[..], last, T, Min(floor, C))
      ensures C == old(C) + adjtim && M == Max(old(M), C)
    {
      Movable(C + adjtim);
      MoveWords(adjtim);
      C := C + adjtim;
    }

    lemma Movable(c1: int)
      requires Heap() && InOrder() && c1 <= C + TMAX_ADJTIM && (c1 > C && last >= 1 ==> Key(T, heap[1]) + TMAX_ADJTIM > C)
      ensures AllDue(heap[..], last, evttim, T, c1, Max(M, c1), step) && NoneBefore(heap[..], last, T, Min(floor, c1))
    {
      NotTooLate(c1);
      DueLater(heap[..], last, evttim, T, C, M, step, c1, Max(M, c1));
      EarlierBound(heap[..], last, T, floor, Min(floor, c1));
    }

    method MoveWords(adjtim: int)
      requires Clock() && Bounds() && TMIN_ADJTIM <= adjtim <= TMAX_ADJTIM
      modifies `current, `boundary, `monotonic, `offset, `M
      ensures current == Wrap(C + adjtim) && boundary == Wrap(C + adjtim - BOUNDARY_MARGIN)
      ensures M == Max(old(M), C + adjtim) && monotonic == Wrap(M) && offset == Wrap64(K + M - Wrap(M))
    {
      var previous := current;
      WrapAdd(C, adjtim);
      current := Add32(current, Wrap(adjtim));
      StepBack(C + adjtim, BOUNDARY_MARGIN);
      boundary := Sub32(current, BOUNDARY_MARGIN);
      if adjtim > 0 {
        SmallWrap(adjtim);
        RaiseMonotonic(previous, Wrap(adjtim), C);
      }
    }

    /** An adjustment that is not refused leaves every event overdue by less than the margin. */
    lemma NotTooLate(c1: int)
      requires Heap() && c1 <= C + TMAX_ADJTIM && (c1 > C && last >= 1 ==> Key(T, heap[1]) + TMAX_ADJTIM > C)
      ensures NoneBefore(heap[..], last, T, c1 - BOUNDARY_MARGIN)
    {
      if last >= 1 {
        assert DueAt(heap[..], last, evttim, T, C, M, step, 1);
        NoneBeforeTop(heap[..], last, T);
        EarlierBound(heap[..], last, T, T[heap[1]], c1 - BOUNDARY_MARGIN);
      } else {
        ghost var f, d := heap[..], c1 - BOUNDARY_MARGIN;
        forall i: nat ensures LaterAt(f, last, T, d, i) {}
      }
    }

    // ---------- the timer interrupt ----------

    method DeleteTop() returns (e: nat)
      requires Heap() && last >= 1
      modifies heap, `node, `last
      ensures Heap() && e == old(heap[1]) && e < |kind| && old(Registered(e))
      ensures forall x: nat :: Registered(x) <==> x != e && old(Registered(x))
    {
      ghost var f, nd, n := heap[..], node, last;
      assert LinkAt(f, n, nd, 1);
      e := heap[1];
      Vacated(f, n, nd, e);
      Shorter(f, n, T);
      last := last - 1;
      forall i: nat ensures DueAt(f, last, evttim, T, C, M, step, i) { assert DueAt(f, n, evttim, T, C, M, step, i); }
      if last >= 1 {
        var l := heap[last + 1];
        assert DueAt(f, n, evttim, T, C, M, step, n);
        ghost var f0 := f[1 := l];
        forall i: nat ensures DueAt(f0, last, evttim, T, C, M, step, i) {
          assert DueAt(f, n, evttim, T, C, M, step, if i == 1 then n else i);
        }
        assert evttim[l := evttim[l]] == evttim;
        VacatedDown(f, n, T, 1);
        var p := Down(1, evttim[l], l);
        ghost var f1, nd1 := heap[..][p := l], node[l := p];
        heap[p] := l;
        node := node[l := p];
        assert heap[..] == f1 && Without(f, n, nd, f0, nd[l := 1], e) && SameMembers(f0, nd[l := 1], f1, nd1, last);
      }
      assert forall x: nat :: IsIn(heap[..], last, node, x) <==> x != e && IsIn(f, n, nd, x);
    }

    /** A started event is in the heap, and due a whole number of periods after the first time. */
    ghost predicate Started()
      reads `last, `node, `T, `active, `birth, `times, heap
    {
      && |active| == |birth| == |times| == |T| == |kind|
      && (forall e: nat :: ActiveAt(e))
      && (forall e: nat :: SteadyAt(e))
    }

    ghost predicate ActiveAt(e: nat)
      requires |active| == |kind|
      reads `last, `node, `active, heap
    {
      e < |kind| ==> (active[e] <==> Registered(e))
    }

    ghost predicate SteadyAt(e: nat)
      requires |active| == |birth| == |times| == |T| == |kind|
      reads `T, `birth, `times, `active
    {
      e < |kind| && active[e] ==> T[e] == First(birth[e], step) + times[e] * Every(kind[e])
    }

    /** `call_cyclic`: the next time is a period after the last one, whenever that was called back. */
    method CallCyclic(e: nat, cyctim: nat)
      requires Heap() && Armed() && InOrder() && e < |kind| && kind[e].Cyclic? && kind[e].cyctim == cyctim && !Registered(e)
      requires DueOk(evttim[e], T[e], C, M, step) && floor == T[e] <= C && |times| == |kind|
      modifies heap, `node, `last, `evttim, `T, `times
      ensures Heap() && InOrder() && (inSignal ==> Armed())
      ensures T == old(T)[e := old(T)[e] + cyctim] && times == old(times)[e := old(times)[e] + 1]
      ensures forall x: nat :: Registered(x) <==> x == e || old(Registered(x))
    {
      ghost var due := T[e] + cyctim;
      StepForward(T[e], cyctim);
      DueElsewhere(heap[..], last, node, evttim, T, C, M, step, e, Wrap(due), due);
      NoneBeforeElsewhere(heap[..], last, node, T, floor, e, due);
      assert LinkAt(heap[..], last, node, 1);
      evttim := evttim[e := Add32(evttim[e], cyctim)];
      T := T[e := due];
      times := times[e := times[e] + 1];
      Register(e);
    }

    /** The earliest event, which is due, leaves the heap and is called back; a cyclic one comes again. */
    method CallEarliest()
      requires Valid() && Started() && inSignal && last >= 1 && Key(T, heap[1]) <= C
      modifies heap, `node, `last, `evttim, `T, `floor, `log, `active, `times
      ensures Valid() && Started()
      ensures var e := old(heap[1]);
        Earliest(old(State()), e) && old(State()).due[e] <= C && State() == Called(old(State()), e) && floor == old(T)[e]
      ensures Overdue(heap[..], last, node, T, C, |kind|) < old(Overdue(heap[..], last, node, T, C, |kind|))
    {
      ghost var f, nd, n, t, s0 := heap[..], node, last, T, State();
      TopIsEarliest();
      ghost var e := ServeEarliest();
      LessOverdue(f, n, nd, t, e);
      DuesAfterCall(f, n, nd, t, e);
      assert State() == Called(s0, e);
    }

    method ServeEarliest() returns (ghost e: nat)
      requires Valid() && Started() && inSignal && last >= 1 && Key(T, heap[1]) <= C
      modifies heap, `node, `last, `evttim, `T, `floor, `log, `active, `times
      ensures Valid() && Started() && e == old(heap[1]) && e < |kind| && old(Registered(e)) && floor == old(T)[e] <= C
      ensures log == old(log) + [Call(e, old(T)[e], H, C, birth[e], old(times)[e])]
      ensures T == (if kind[e].Cyclic? then old(T)[e := old(T)[e] + kind[e].cyctim] else old(T))
      ensures times == (if kind[e].Cyclic? then old(times)[e := old(times)[e] + 1] else old(times))
      ensures forall x: nat :: Registered(x) <==> (x == e && kind[e].Cyclic?) || (x != e && old(Registered(x)))
    {
      ghost var f, nd, n, t := heap[..], node, last, T;
      OldStarted(f, n, nd, t);
      var x := TakeEarliest();
      CallBack(x);
      StillStarted(x, old(active), old(T), old(times), old(birth), f, n, nd);
      e := x;
    }

    lemma DuesAfterCall(f: seq<nat>, n: nat, nd: seq<nat>, t: seq<int>, e: nat)
      requires e < |t| == |T| == |kind| && IsIn(f, n, nd, e)
      requires forall x: nat :: Registered(x) <==> (x == e && kind[e].Cyclic?) || (x != e && IsIn(f, n, nd, x))
      requires T == if kind[e].Cyclic? then t[e := t[e] + kind[e].cyctim] else t
      ensures Dues(heap[..], last, node, T) ==
        if kind[e].Cyclic? then Dues(f, n, nd, t)[e := t[e] + kind[e].cyctim] else Dues(f, n, nd, t) - {e}
    {
      forall x: nat
        ensures IsIn(heap[..], last, node, x) <==> (x == e && kind[e].Cyclic?) || (x != e && IsIn(f, n, nd, x)) {
        assert Registered(x) <==> IsIn(heap[..], last, node, x);
      }
      if kind[e].Cyclic? {
        DuesWith(f, n, nd, t, heap[..], last, node, T, e);
      } else {
        DuesWithout(f, n, nd, t, heap[..], last, node, e);
      }
    }

    /** `Started` in terms of the fields. */
    lemma OldStarted(f: seq<nat>, n: nat, nd: seq<nat>, t: seq<int>)
      requires Started() && f == heap[..] && n == last && nd == node && t == T
      ensures forall x: nat :: x < |kind| ==>
        (active[x] <==> IsIn(f, n, nd, x)) && (active[x] ==> t[x] == First(birth[x], step) + times[x] * Every(kind[x]))
    {
      forall x: nat | x < |kind|
        ensures (active[x] <==> IsIn(f, n, nd, x)) && (active[x] ==> t[x] == First(birth[x], step) + times[x] * Every(kind[x])) {
        assert ActiveAt(x) && SteadyAt(x);
      }
    }

    lemma TopIsEarliest()
      requires Heap() && last >= 1
      ensures heap[1] < |T| && Earliest(State(), heap[1]) && State().due[heap[1]] == T[heap[1]]
    {
      assert LinkAt(heap[..], last, node, 1);
      forall x | x in State().due ensures T[heap[1]] <= State().due[x] { TopIsFirst(heap[..], last, T, node[x]); }
    }

    /** The call back of an event that has been taken out of the heap. */
    method CallBack(e: nat)
      requires Heap() && Clock() && Armed() && InOrder() && inSignal && e < |kind| && !Registered(e)
      requires DueOk(evttim[e], T[e], C, M, step) && floor == T[e] <= C && |times| == |active| == |birth| == |kind|
      requires T[e] == First(birth[e], step) + times[e] * Every(kind[e])
      modifies heap, `node, `last, `evttim, `T, `active, `times
      ensures Valid()
      ensures forall x: nat :: Registered(x) <==> (x == e && kind[e].Cyclic?) || old(Registered(x))
      ensures if kind[e].Cyclic? then active == old(active) && T == old(T)[e := old(T)[e] + kind[e].cyctim]
                && times == old(times)[e := old(times)[e] + 1] && T[e] == First(birth[e], step) + times[e] * Every(kind[e])
              else active == old(active)[e := false] && T == old(T) && times == old(times)
    {
      match kind[e]
      case OneShot =>
        active := active[e := false];
      case Cyclic(cyctim, _) =>
        CallCyclic(e, cyctim);
        NextPeriod(First(birth[e], step), old(times)[e], cyctim);
    }

    method TakeEarliest() returns (e: nat)
      requires Valid() && inSignal && last >= 1 && Key(T, heap[1]) <= C && |birth| == |times| == |kind|
      modifies heap, `node, `last, `floor, `log
      ensures Heap() && Clock() && Armed() && InOrder() && e == old(heap[1]) && e < |kind| && !Registered(e) && old(Registered(e))
      ensures DueOk(evttim[e], T[e], C, M, step) && floor == T[e] <= C
      ensures log == old(log) + [Call(e, T[e], H, C, birth[e], times[e])]
      ensures forall x: nat :: Registered(x) <==> x != e && old(Registered(x))
    {
      ghost var f, nd, n := heap[..], node, last;
      assert DueAt(f, n, evttim, T, C, M, step, 1);
      NoneBeforeTop(f, n, T);
      assert LaterAt(f, n, T, floor, 1);
      e := DeleteTop();
      ghost var due := T[e];
      forall x: nat | IsIn(heap[..], last, node, x) ensures x != e && IsIn(f, n, nd, x) { assert Registered(x); }
      NoneBeforeMembers(f, n, nd, heap[..], last, node, T, due, e);
      LogGrows(log, mark, floor, Call(e, due, H, C, birth[e], times[e]));
      floor, log := due, log + [Call(e, due, H, C, birth[e], times[e])];
    }

    /** After event `e` has been called back, or started. */
    lemma StillStarted(e: nat, active0: seq<bool>, t0: seq<int>, times0: seq<nat>, birth0: seq<Birth>, f: seq<nat>, n: nat, nd: seq<nat>)
      requires e < |kind| && |active| == |active0| == |birth| == |birth0| == |times| == |times0| == |T| == |t0| == |kind|
      requires forall x: nat :: x < |kind| ==>
        (active0[x] <==> IsIn(f, n, nd, x)) && (active0[x] ==> t0[x] == First(birth0[x], step) + times0[x] * Every(kind[x]))
      requires forall x: nat :: x != e ==> (Registered(x) <==> IsIn(f, n, nd, x))
      requires active[e] <==> Registered(e)
      requires active[e] ==> T[e] == First(birth[e], step) + times[e] * Every(kind[e])
      requires forall x: nat :: x < |kind| && x != e ==>
        active[x] == active0[x] && T[x] == t0[x] && times[x] == times0[x] && birth[x] == birth0[x]
      ensures Started()
    {
      forall x: nat ensures ActiveAt(x) && SteadyAt(x) { assert x != e ==> (Registered(x) <==> IsIn(f, n, nd, x)); }
    }

    lemma LessOverdue(f: seq<nat>, n: nat, nd: seq<nat>, t: seq<int>, e: nat)
      requires e < |kind| == |t| == |T| && IsIn(f, n, nd, e) && t[e] <= C
      requires forall x: nat :: x != e ==> (Registered(x) <==> IsIn(f, n, nd, x))
      requires forall x: nat :: x < |kind| && x != e ==> T[x] == t[x]
      requires Registered(e) ==> T[e] > t[e]
      ensures Overdue(heap[..], last, node, T, C, |kind|) < Overdue(f, n, nd, t, C, |kind|)
    {
      forall x: nat | x != e ensures OverdueBy(heap[..], last, node, T, C, x) == OverdueBy(f, n, nd, t, C, x) {
        assert Registered(x) <==> IsIn(f, n, nd, x);
      }
      OverdueLess(f, n, nd, t, heap[..], last, node, T, C, e, |kind|);
    }

    /** One round of `signal_time`: the clock is read, and all that is due by it is called back. `xs` is what
        has been done, step by step. */
    method SignalRound(now: nat) returns (called: bool, ghost xs: seq<Step>)
      requires Valid() && Started() && inSignal && Timely(now)
      modifies heap, `node, `last, `evttim, `T, `floor, `log, `active, `times, `boundary, `current, `monotonic, `hrtcnt, `offset, `H, `C, `M
      ensures Valid() && Started() && H == now
      ensures Quiet(xs) && State() == Run(old(State()), xs) && Settled(old(State()), State())
      ensures called || log == old(log)
      ensures last >= 1 ==> Key(T, heap[1]) > C
    {
      ghost var s0 := State();
      AllInRange();
      ReadClock(now);
      RunOneMore(s0, [], ReadTo(now));
      called, xs := CallAllDue(s0, [ReadTo(now)]);
      NothingDue();
      SettledAfter(s0, xs);
    }

    lemma AllInRange()
      requires Valid() && Started()
      ensures WellFormed(State()) && State().c <= State().m
    {}

    /** The inner loop. */
    method CallAllDue(ghost s0: TimeSpec.State, ghost ys: seq<Step>) returns (called: bool, ghost xs: seq<Step>)
      requires Valid() && Started() && inSignal && WellFormed(s0) && Quiet(ys) && State() == Run(s0, ys)
      modifies heap, `node, `last, `evttim, `T, `floor, `log, `active, `times
      ensures Valid() && Started() && Quiet(xs) && State() == Run(s0, xs)
      ensures called || log == old(log)
      ensures last >= 1 ==> Key(T, heap[1]) > C
    {
      called := false;
      xs := ys;
      while true
        invariant Valid() && Started() && Quiet(xs) && State() == Run(s0, xs)
        invariant called || log == old(log)
        decreases Overdue(heap[..], last, node, T, C, |kind|)
      {
        var due := TopIsDue();
        if !due {
          break;
        }
        xs := CallNext(s0, xs);
        called := true;
      }
    }

    method CallNext(ghost s0: TimeSpec.State, ghost ys: seq<Step>) returns (ghost xs: seq<Step>)
      requires Valid() && Started() && inSignal && last >= 1 && Key(T, heap[1]) <= C
      requires WellFormed(s0) && Quiet(ys) && State() == Run(s0, ys)
      modifies heap, `node, `last, `evttim, `T, `floor, `log, `active, `times
      ensures Valid() && Started() && Quiet(xs) && State() == Run(s0, xs)
      ensures Overdue(heap[..], last, node, T, C, |kind|) < old(Overdue(heap[..], last, node, T, C, |kind|))
    {
      xs := ys + [CallEvent(heap[1])];
      RunOneMore(s0, ys, CallEvent(heap[1]));
      CallEarliest();
    }

    method TopIsDue() returns (due: bool)
      requires Heap() && Clock()
      ensures due <==> last >= 1 && Key(T, heap[1]) <= C
    {
      if last < 1 {
        return false;
      }
      ghost var t := TopDue();
      return EvttimLe(evttim[heap[1]], current, boundary);
    }

    /** Nothing that is registered is due. */
    lemma NothingDue()
      requires Heap() && (last >= 1 ==> Key(T, heap[1]) > C)
      ensures forall x :: x in State().due ==> State().due[x] > C
    {
      if last >= 1 { TopIsEarliest(); }
    }

    /** `signal_time`. The readings of the timer, one a round, are `nows`; the call returns when a round has
        had nothing to call back. */
    method SignalTime(nows: seq<nat>) returns (returned: bool, ghost xs: seq<Step>)
      requires Valid() && Started() && !inSignal && |nows| >= 1 && Timely(nows[0])
      requires forall i :: 0 <= i < |nows| - 1 ==> nows[i] <= nows[i + 1] < nows[i] + Min(period, BOUNDARY_MARGIN)
      modifies heap, `node, `last, `evttim, `T, `floor, `log, `active, `times, `boundary, `current, `monotonic, `hrtcnt, `offset, `H, `C, `M
      modifies `deadline, `pending, `inSignal
      ensures Valid() && Started() && inSignal == !returned && H in nows
      ensures Quiet(xs) && State() == Run(old(State()), xs) && Settled(old(State()), State())
      ensures returned && last >= 1 ==> Key(T, heap[1]) > C && deadline == H + Min(Key(T, heap[1]) - C, bound)
    {
      ghost var s0 := State();
      AllInRange();
      EnterSignal();
      returned, xs := SignalRounds(nows);
      NothingDue();
      SettledAfter(s0, xs);
      if returned {
        LeaveSignal();
      }
    }

    method EnterSignal()
      requires Valid()
      modifies `pending, `inSignal
      ensures Valid() && inSignal && State() == old(State())
    {
      inSignal := true;
      pending := false;
    }

    /** At the end the timer is armed; nothing is due. */
    method LeaveSignal()
      requires Valid() && inSignal && (last >= 1 ==> Key(T, heap[1]) > C)
      modifies `deadline, `pending, `inSignal
      ensures Valid() && !inSignal && State() == old(State())
      ensures last >= 1 ==> deadline == H + Min(Key(T, heap[1]) - C, bound) && pending == old(pending)
    {
      SetHrtEvent();
      inSignal := false;
    }

    method SignalRounds(nows: seq<nat>) returns (calm: bool, ghost xs: seq<Step>)
      requires Valid() && Started() && inSignal && |nows| >= 1 && Timely(nows[0])
      requires forall i :: 0 <= i < |nows| - 1 ==> nows[i] <= nows[i + 1] < nows[i] + Min(period, BOUNDARY_MARGIN)
      modifies heap, `node, `last, `evttim, `T, `floor, `log, `active, `times, `boundary, `current, `monotonic, `hrtcnt, `offset, `H, `C, `M
      ensures Valid() && Started() && H in nows && (last >= 1 ==> Key(T, heap[1]) > C)
      ensures Quiet(xs) && State() == Run(old(State()), xs)
    {
      ghost var s0 := State();
      AllInRange();
      var callflag;
      callflag, xs := SignalRound(nows[0]);
      var i := 1;
      while callflag && i < |nows|
        invariant 1 <= i <= |nows| && Valid() && Started()
        invariant Quiet(xs) && State() == Run(s0, xs)
        invariant H == nows[i - 1] && (last >= 1 ==> Key(T, heap[1]) > C)
      {
        NextReading(nows[i]);
        callflag, xs := OneMoreRound(nows[i], s0, xs);
        i := i + 1;
      }
      calm := !callflag;
    }

    method OneMoreRound(now: nat, ghost s0: TimeSpec.State, ghost xs: seq<Step>) returns (called: bool, ghost zs: seq<Step>)
      requires Valid() && Started() && inSignal && Timely(now) && WellFormed(s0) && Quiet(xs) && State() == Run(s0, xs)
      modifies heap, `node, `last, `evttim, `T, `floor, `log, `active, `times, `boundary, `current, `monotonic, `hrtcnt, `offset, `H, `C, `M
      ensures Valid() && Started() && H == now && (last >= 1 ==> Key(T, heap[1]) > C)
      ensures Quiet(zs) && State() == Run(s0, zs)
    {
      ghost var ys;
      called, ys := SignalRound(now);
      RunTwice(s0, xs, ys);
      zs := xs + ys;
    }

    /** With nothing left that is due, the clock may be read again any time within the margin. */
    lemma NextReading(now: nat)
      requires Heap() && H <= now < H + Min(period, BOUNDARY_MARGIN) && (last >= 1 ==> Key(T, heap[1]) > C)
      ensures Timely(now)
    {
      ghost var f, d := heap[..], C + (now - H) - BOUNDARY_MARGIN;
      if last >= 1 {
        NoneBeforeTop(f, last, T);
        EarlierBound(f, last, T, Key(T, heap[1]), d);
      } else {
        forall i: nat ensures LaterAt(f, last, T, d, i) {}
      }
    }

    /** When interrupts are delayed by no more than `latency`, the clock is read in time: no event is overdue by
        more than the margin, and the timer has not gone round. */
    lemma LatencyMakesTimely(now: nat, latency: nat)
      requires Valid() && !inSignal && !pending && H <= now <= deadline + latency
      requires latency <= BOUNDARY_MARGIN && bound + latency < period
      ensures Timely(now)
    {
      ghost var f, d := heap[..], C + (now - H) - BOUNDARY_MARGIN;
      if last >= 1 {
        TopIsEarliest();
        NoneBeforeTop(f, last, T);
        EarlierBound(f, last, T, Key(T, heap[1]), d);
      } else {
        forall i: nat ensures LaterAt(f, last, T, d, i) {}
      }
    }

    // ---------- cyclic notifications and alarms ----------

    /** The event is started, or started anew. */
    method Start(e: nat, time: nat, now: nat, now2: nat)
      requires Valid() && Started() && e < |kind| && time <= TMAX_RELTIM && Timely(now) && Timely(now2) && now <= now2
      modifies heap, `node, `last, `evttim, `T, `deadline, `pending, `active, `birth, `times, `boundary, `current, `monotonic, `hrtcnt, `offset, `H, `C, `M
      ensures Valid() && Started() && State() == Begin(Read(old(State()), now2), e, time)
      ensures active == old(active)[e := true] && T == old(T)[e := C + step + time]
    {
      ghost var f, nd, n, t, s0 := heap[..], node, last, T, State();
      BeginFields(e, time, now, now2);
      NowRegistered(f, n, nd, e, true);
      DuesWith(f, n, nd, t, heap[..], last, node, T, e);
      assert State() == Begin(Read(s0, now2), e, time);
    }

    method BeginFields(e: nat, time: nat, now: nat, now2: nat)
      requires Valid() && Started() && e < |kind| && time <= TMAX_RELTIM && Timely(now) && Timely(now2) && now <= now2
      modifies heap, `node, `last, `evttim, `T, `deadline, `pending, `active, `birth, `times, `boundary, `current, `monotonic, `hrtcnt, `offset, `H, `C, `M
      ensures Valid() && Started() && H == now2 && C - H == old(C - H) && M == Max(old(M), C)
      ensures active == old(active)[e := true] && T == old(T)[e := C + step + time]
      ensures birth == old(birth)[e := Birth(H, C, time)] && times == old(times)[e := 0]
      ensures forall x: nat :: Registered(x) <==> x == e || old(Registered(x))
    {
      ghost var f, nd, n := heap[..], node, last;
      OldStarted(f, n, nd, T);
      Enter(e, time, now, now2);
      birth, times := birth[e := Birth(H, C, time)], times[e := 0];
      assert Registered(e);
      StillStarted(e, old(active), old(T), old(times), old(birth), f, n, nd);
    }

    /** `Registered` in terms of the fields, after event `e` has been entered or taken out. */
    lemma NowRegistered(f: seq<nat>, n: nat, nd: seq<nat>, e: nat, there: bool)
      requires forall x: nat :: Registered(x) <==> if x == e then there else IsIn(f, n, nd, x)
      ensures forall x: nat :: IsIn(heap[..], last, node, x) <==> if x == e then there else IsIn(f, n, nd, x)
    {
      forall x: nat ensures IsIn(heap[..], last, node, x) <==> if x == e then there else IsIn(f, n, nd, x) {
        assert Registered(x) <==> IsIn(heap[..], last, node, x);
      }
    }

    method Enter(e: nat, time: nat, now: nat, now2: nat)
      requires Valid() && e < |kind| == |active| && (active[e] <==> Registered(e))
      requires time <= TMAX_RELTIM && Timely(now) && Timely(now2) && now <= now2
      modifies heap, `node, `last, `evttim, `T, `deadline, `pending, `active, `boundary, `current, `monotonic, `hrtcnt, `offset, `H, `C, `M
      ensures Valid() && H == now2 && C - H == old(C - H) && M == Max(old(M), C)
      ensures active == old(active)[e := true] && T == old(T)[e := C + step + time]
      ensures forall x: nat :: Registered(x) <==> x == e || old(Registered(x))
    {
      if active[e] {
        TmevtbDequeue(e, now, now2);
      } else {
        active := active[e := true];
      }
      TmevtbEnqueueReltim(e, time, now2);
    }

    /** The clock is read only if the earliest event is the one stopped. */
    method Stop(e: nat, now: nat)
      requires Valid() && Started() && e < |kind| && Timely(now)
      modifies heap, `node, `last, `deadline, `pending, `active, `boundary, `current, `monotonic, `hrtcnt, `offset, `H, `C, `M
      ensures Valid() && Started() && old(H) <= H <= now && State() == End(Read(old(State()), H), e)
      ensures active == old(active)[e := false]
    {
      assert ActiveAt(e);
      if active[e] {
        Remove(e, now);
      } else {
        assert State().due == State().due - {e};
      }
    }

    method Remove(e: nat, now: nat)
      requires Valid() && Started() && e < |kind| && active[e] && Timely(now)
      modifies heap, `node, `last, `deadline, `pending, `active, `boundary, `current, `monotonic, `hrtcnt, `offset, `H, `C, `M
      ensures Valid() && Started() && old(H) <= H <= now && State() == End(Read(old(State()), H), e)
      ensures active == old(active)[e := false]
    {
      ghost var f, nd, n, s0 := heap[..], node, last, State();
      RemoveFields(e, now);
      NowRegistered(f, n, nd, e, false);
      DuesWithout(f, n, nd, T, heap[..], last, node, e);
      assert State() == End(Read(s0, H), e);
    }

    method RemoveFields(e: nat, now: nat)
      requires Valid() && Started() && e < |kind| && active[e] && Timely(now)
      modifies heap, `node, `last, `deadline, `pending, `active, `boundary, `current, `monotonic, `hrtcnt, `offset, `H, `C, `M
      ensures Valid() && Started() && old(H) <= H <= now && C - H == old(C - H) && M == Max(old(M), C)
      ensures active == old(active)[e := false]
      ensures forall x: nat :: Registered(x) <==> x != e && old(Registered(x))
    {
      assert ActiveAt(e);
      ghost var f, nd, n := heap[..], node, last;
      OldStarted(f, n, nd, T);
      active := active[e := false];
      TmevtbDequeue(e, now, now);
      StillStarted(e, old(active), T, times, birth, f, n, nd);
    }

    /** `sta_cyc` */
    method StaCyc(e: nat, now: nat, now2: nat)
      requires Valid() && Started() && e < |kind| && kind[e].Cyclic? && Timely(now) && Timely(now2) && now <= now2
      modifies heap, `node, `last, `evttim, `T, `deadline, `pending, `active, `birth, `times, `boundary, `current, `monotonic, `hrtcnt, `offset, `H, `C, `M
      ensures Valid() && Started() && State() == Begin(Read(old(State()), now2), e, kind[e].cycphs)
      ensures active == old(active)[e := true] && T == old(T)[e := C + step + kind[e].cycphs]
    {
      Start(e, kind[e].cycphs, now, now2);
    }

    /** `sta_alm` */
    method StaAlm(e: nat, almtim: nat, now: nat, now2: nat) returns (ok: bool)
      requires Valid() && Started() && e < |kind| && kind[e].OneShot? && Timely(now) && Timely(now2) && now <= now2
      modifies heap, `node, `last, `evttim, `T, `deadline, `pending, `active, `birth, `times, `boundary, `current, `monotonic, `hrtcnt, `offset, `H, `C, `M
      ensures Valid() && Started() && (ok <==> almtim <= TMAX_RELTIM)
      ensures State() == if ok then Begin(Read(old(State()), now2), e, almtim) else old(State())
      ensures active == (if ok then old(active)[e := true] else old(active)) && (!ok ==> T == old(T))
    {
      if almtim > TMAX_RELTIM {
        return false;
      }
      Start(e, almtim, now, now2);
      return true;
    }

    // ---------- the beginning ----------

    constructor (kinds: seq<Kind>, hrtPeriod: nat, hrtStep: nat, hrtBound: nat, now: nat)
      requires 0 < hrtPeriod <= U32 && hrtStep <= MAX_TSTEP && hrtBound < hrtPeriod
      requires forall e :: 0 <= e < |kinds| && kinds[e].Cyclic? ==> 1 <= kinds[e].cyctim <= TMAX_RELTIM && kinds[e].cycphs <= TMAX_RELTIM
      ensures Valid() && Started() && !inSignal && Initial(State()) && C == 0 && M == 0 && H == now && K == 0
      ensures kind == kinds && period == hrtPeriod && step == hrtStep && bound == hrtBound
      ensures fresh(heap)
    {
      kind, period, step, bound := kinds, hrtPeriod, hrtStep, hrtBound;
      heap := new nat[|kinds| + 1];
      last := 0;
      node := seq(|kinds|, _ => 0);
      evttim := seq(|kinds|, _ => 0);
      current, boundary, monotonic, offset := 0, Sub32(0, BOUNDARY_MARGIN), 0, 0;
      hrtcnt := now % hrtPeriod;
      inSignal := false;
      active := seq(|kinds|, _ => false);
      H, C, M, K, floor, mark, log := now, 0, 0, 0, 0, 0, [];
      T := seq(|kinds|, _ => 0);
      birth := seq(|kinds|, _ => Birth(0, 0, 0));
      times := seq(|kinds|, _ => 0);
      deadline, pending := now + hrtBound, false;
      new;
      StepBack(0, BOUNDARY_MARGIN);
      SmallWrap(0);
      ghost var f := heap[..];
      forall i: nat
        ensures LinkAt(f, 0, node, i) && EdgeAt(f, 0, T, i) && DueAt(f, 0, evttim, T, 0, 0, step, i) && LaterAt(f, 0, T, 0, i) {}
      forall e: nat ensures ActiveAt(e) && SteadyAt(e) {}
      forall i: nat ensures PunctualAt([], 0, 0, i) {}
      forall i: nat, j: nat ensures SortedAt([], 0, i, j) {}
    }
  }
}
