/** Stored priorities and chained locks: what changes to them stand for. */
module KernelLocks {
  import opened PriorityList
  import opened ReadyQueues
  import opened KernelSpec
  import opened KernelInv
  import opened KernelOps
  import opened KernelRuns
  import opened KernelData
  import opened KernelRel

  // ---------- change_priority ----------

  /** What `change_priority` does. */
  function Repri(c: C, obj: seq<Obj>, t: nat, n: nat, front: bool): C
    requires t < |c.tcb|
  {
    var tcb := c.tcb[t := c.tcb[t].(pri := n)];
    match c.tcb[t].stat
    case Runnable => c.(tcb := tcb, ready := Insert(Prios(tcb), Remove(c.ready, t), t, front))
    case Waiting(On(o), _) => c.(tcb := tcb, wq := Requeued(c.wq, obj, Prios(tcb), t, o))
    case _ => c.(tcb := tcb)
  }

  /** What `wobj_change_priority` does. */
  function Requeued(wq: seq<seq<nat>>, obj: seq<Obj>, pri: seq<nat>, t: nat, o: nat): seq<seq<nat>> {
    if o < |wq| && ByPriority(obj, o) then wq[o := Insert(pri, Remove(wq[o], t), t, false)] else wq
  }

  lemma ReplaceIs(g: K, t: nat, x: Task, front: bool)
    requires t < |g.tsk| && x.stat == Tsk(g, t).stat
    ensures var pri := Pris(SetTsk(g, t, x));
      Replace(g, t, x, front) == g.(tsk := g.tsk[t := x],
        ready := if x.stat.Runnable? then Insert(pri, Remove(g.ready, t), t, front) else g.ready,
        wq := if x.stat.Waiting? && x.stat.why.On? then Requeued(g.wq, g.obj, pri, t, x.stat.why.obj) else g.wq)
  {
    if x.stat.Waiting? {
      if x.stat.why.On? && ByPriority(g.obj, x.stat.why.obj) { PlaceAgain(g, t, x, front, x.stat.why.obj); }
    } else {
      PlaceIdle(g, t, x, front);
    }
  }

  /** Out of the queue of an object and into it again. */
  lemma PlaceAgain(g: K, t: nat, x: Task, front: bool, o: nat)
    requires t < |g.tsk| && x.stat == Tsk(g, t).stat && x.stat.Waiting? && x.stat.why == On(o) && ByPriority(g.obj, o)
    ensures Place(g, t, x, front) ==
      g.(tsk := g.tsk[t := x], wq := Requeued(g.wq, g.obj, Pris(SetTsk(g, t, x)), t, o))
  {
    LeaveIs(g, t);
    var s2 := SetTsk(Leave(g, t), t, x);
    assert Pris(s2) == Pris(SetTsk(g, t, x));
    if o < |g.wq| {
      LastUpdateWins(g.wq, o, Remove(g.wq[o], t), Insert(Pris(s2), Remove(g.wq[o], t), t, false));
    }
  }

  lemma RepriIs(c: C, obj: seq<Obj>, t: nat, n: nat, front: bool)
    requires t < |c.tcb|
    ensures var tcb := c.tcb[t := c.tcb[t].(pri := n)];
      var stat := c.tcb[t].stat;
      Repri(c, obj, t, n, front) == c.(tcb := tcb,
        ready := if stat.Runnable? then Insert(Prios(tcb), Remove(c.ready, t), t, front) else c.ready,
        wq := if stat.Waiting? && stat.why.On? then Requeued(c.wq, obj, Prios(tcb), t, stat.why.obj) else c.wq)
  {}

  lemma RepriReady(c: C, obj: seq<Obj>, t: nat, n: nat, front: bool)
    requires t < |c.tcb| && c.tcb[t].stat.Runnable?
    ensures var tcb := c.tcb[t := c.tcb[t].(pri := n)];
      Repri(c, obj, t, n, front) == c.(tcb := tcb, ready := Insert(Prios(tcb), Remove(c.ready, t), t, front))
  {}

  lemma RepriIdle(c: C, obj: seq<Obj>, t: nat, n: nat, front: bool)
    requires t < |c.tcb| && !c.tcb[t].stat.Runnable?
    ensures var tcb := c.tcb[t := c.tcb[t].(pri := n)];
      var stat := c.tcb[t].stat;
      Repri(c, obj, t, n, front) == if stat.Waiting? && stat.why.On?
        then c.(tcb := tcb, wq := Requeued(c.wq, obj, Prios(tcb), t, stat.why.obj)) else c.(tcb := tcb)
  {}

  /** A record changes and gets the place that goes with its new priority. */
  lemma RelReplace(c: C, c1: C, g: K, t: nat, x: Task, front: bool)
    requires Rel(c, g, None) && t < |c.tcb| && |c1.prevmtx| == |c.prevmtx| && |c1.tcb| == |c.tcb|
    requires c1 == c.(tcb := c.tcb[t := c1.tcb[t]], prevmtx := c1.prevmtx)
    requires x == ToTask(c1.tcb[t], x.locks) && Chain(c1.prevmtx, c1.tcb[t].lastmtx, x.locks)
    requires forall z: nat :: z < |c.tcb| && z != t ==> Chain(c1.prevmtx, c.tcb[z].lastmtx, Tsk(g, z).locks)
    requires x.stat == Tsk(g, t).stat && x.winfo == Tsk(g, t).winfo
    ensures Rel(Repri(c1, g.obj, t, EffPri(g.obj, x.bpri, x.locks), front), Replace(g, t, x, front), None)
  {
    var n := EffPri(g.obj, x.bpri, x.locks);
    var tcb1 := c1.tcb[t := c1.tcb[t].(pri := n)];
    var g1 := Replace(g, t, x, front);
    ReplaceFrame(g, t, x, front);
    assert (forall z: nat :: TaskAt(tcb1, c1.prevmtx, g1, z, None)) && (forall z: nat :: At(Prios(tcb1), z) == At(Pris(g1), z)) by {
      assert tcb1 == c.tcb[t := tcb1[t]];
      RecordsAfter(c, g, None, t, x, tcb1[t], g1, tcb1, c1.prevmtx);
    }
    RepriAgrees(c1, g, t, x, n, front);
    ReplacedRel(c, c1, Repri(c1, g.obj, t, n, front), g, t, x, g1);
  }

  lemma ReplaceFrame(g: K, t: nat, x: Task, front: bool)
    requires t < |g.tsk| && x.stat == Tsk(g, t).stat
    ensures var g1 := Replace(g, t, x, front);
      g1 == g.(tsk := g.tsk[t := x], ready := g1.ready, wq := g1.wq) && Pris(SetTsk(g, t, x)) == Pris(g1)
  {
    ReplaceIs(g, t, x, front);
  }

  /** Both move the task to the same places. */
  lemma RepriAgrees(c1: C, g: K, t: nat, x: Task, n: nat, front: bool)
    requires t < |c1.tcb| && t < |g.tsk| && x.stat == Tsk(g, t).stat == c1.tcb[t].stat && c1.ready == g.ready && c1.wq == g.wq
    requires var tcb1 := c1.tcb[t := c1.tcb[t].(pri := n)];
      forall z: nat :: At(Prios(tcb1), z) == At(Pris(Replace(g, t, x, front)), z)
    ensures var c2, g1 := Repri(c1, g.obj, t, n, front), Replace(g, t, x, front);
      && c2 == c1.(tcb := c1.tcb[t := c1.tcb[t].(pri := n)], ready := c2.ready, wq := c2.wq)
      && c2.ready == g1.ready && c2.wq == g1.wq
  {
    ReplaceIs(g, t, x, front);
    ReplaceFrame(g, t, x, front);
    RepriIs(c1, g.obj, t, n, front);
    InsertsAgree(Prios(c1.tcb[t := c1.tcb[t].(pri := n)]), Pris(SetTsk(g, t, x)), g, t, x, front);
  }

  lemma ReplacedRel(c: C, c1: C, c2: C, g: K, t: nat, x: Task, g1: K)
    requires Rel(c, g, None) && t < |c.tcb| && |c2.prevmtx| == |c.prevmtx| && |c2.tcb| == |c.tcb|
    requires x.stat == Tsk(g, t).stat && x.winfo == Tsk(g, t).winfo
    requires g1 == g.(tsk := g.tsk[t := x], ready := g1.ready, wq := g1.wq)
    requires c1 == c.(tcb := c1.tcb, prevmtx := c1.prevmtx) && c2 == c1.(tcb := c2.tcb, ready := c2.ready, wq := c2.wq)
    requires c2.ready == g1.ready && c2.wq == g1.wq
    requires forall z: nat :: TaskAt(c2.tcb, c2.prevmtx, g1, z, None)
    ensures Rel(c2, g1, None)
  {
    forall z: nat ensures EventAt(c.tmev, g1, z) { assert EventAt(c.tmev, g, z); }
  }

  lemma InsertsAgree(pri: seq<nat>, pri': seq<nat>, g: K, t: nat, x: Task, front: bool)
    requires forall z: nat :: At(pri, z) == At(pri', z)
    ensures Insert(pri, Remove(g.ready, t), t, front) == Insert(pri', Remove(g.ready, t), t, front)
    ensures x.stat.Waiting? && x.stat.why.On? ==>
      Requeued(g.wq, g.obj, pri, t, x.stat.why.obj) == Requeued(g.wq, g.obj, pri', t, x.stat.why.obj)
  {
    InsertFrame(pri, pri', Remove(g.ready, t), t, front);
    if x.stat.Waiting? && x.stat.why.On? {
      InsertFrame(pri, pri', Remove(Que(g, x.stat.why.obj), t), t, false);
    }
  }

  // ---------- mutex_acquire ----------

  /** What `mutex_acquire` does to the control blocks of the mutex and the task. */
  function Linked(c: C, t: nat, m: nat): C
    requires t < |c.tcb| && m < |c.loctsk| && m < |c.prevmtx|
  {
    c.(loctsk := c.loctsk[m := Some(t)], prevmtx := c.prevmtx[m := c.tcb[t].lastmtx],
       tcb := c.tcb[t := c.tcb[t].(lastmtx := Some(m))])
  }

  /** A mutex in nobody's chain may be given to someone and linked anywhere. */
  lemma RelOwn(c: C, g: K, lim: Option<nat>, m: nat, owner: Option<nat>, prev: Option<nat>)
    requires Rel(c, g, lim) && m < |c.loctsk| && m < |c.prevmtx|
    requires forall z: nat :: m !in Tsk(g, z).locks
    ensures Rel(c.(loctsk := c.loctsk[m := owner], prevmtx := c.prevmtx[m := prev]), SetOwn(g, m, owner), lim)
  {
    var c0 := c.(loctsk := c.loctsk[m := owner], prevmtx := c.prevmtx[m := prev]);
    var g0 := SetOwn(g, m, owner);
    forall z: nat ensures TaskAt(c0.tcb, c0.prevmtx, g0, z, lim) && EventAt(c0.tmev, g0, z) {
      assert TaskAt(c.tcb, c.prevmtx, g, z, lim) && EventAt(c.tmev, g, z);
      if z < |c.tcb| { ChainFrame(c.prevmtx, c.tcb[z].lastmtx, Tsk(g, z).locks, m, prev); }
    }
  }

  lemma NobodyHas(g: K, m: nat, lim: Option<nat>, free: Option<nat>)
    requires LockInv(g, lim, free) && (Own(g, m) == None || free == Some(m))
    ensures forall z: nat :: m !in Tsk(g, z).locks
  {
    forall z: nat ensures m !in Tsk(g, z).locks { assert LockAt(g, z, m, free); }
  }

  lemma AcquireStep(c: C, g: K, t: nat, m: nat)
    requires Models(c, g, None, None) && IsRunnable(g, t) && IsMtx(g.obj, m) && Own(g, m) == None
    requires IsCeil(g.obj, m) ==> Ceiling(g.obj, m) <= Tsk(g, t).bpri
    ensures t < |c.tcb| && m < |c.loctsk| && m < |c.prevmtx|
    ensures var c1 := Linked(c, t, m);
      Models(if Ceiling(g.obj, m) < c.tcb[t].pri then Repri(c1, g.obj, t, Ceiling(g.obj, m), true) else c1, Acquire(g, t, m), None, None)
    ensures Acquire(g, t, m).obj == g.obj
  {
    assert TaskAt(c.tcb, c.prevmtx, g, t, None);
    AcquireCore(g, t, m);
    NobodyHas(g, m, None, None);
    RelOwn(c, g, None, m, Some(t), c.tcb[t].lastmtx);
    AcquireRel(c, g, t, m) by { assert PriOk(g, t); }
  }

  lemma AcquireRel(c: C, g: K, t: nat, m: nat)
    requires Rel(c, g, None) && IsRunnable(g, t) && t < |c.tcb| && m < |c.loctsk| && m < |c.prevmtx| && m !in Tsk(g, t).locks
    requires Rel(c.(loctsk := c.loctsk[m := Some(t)], prevmtx := c.prevmtx[m := c.tcb[t].lastmtx]), SetOwn(g, m, Some(t)), None)
    requires Tsk(g, t).bpri < TNUM_TPRI
    ensures var c1 := Linked(c, t, m);
      Rel(if Ceiling(g.obj, m) < c.tcb[t].pri then Repri(c1, g.obj, t, Ceiling(g.obj, m), true) else c1, Acquire(g, t, m), None)
  {
    assert TaskAt(c.tcb, c.prevmtx, g, t, None);
    var c0 := c.(loctsk := c.loctsk[m := Some(t)], prevmtx := c.prevmtx[m := c.tcb[t].lastmtx]);
    var g0 := SetOwn(g, m, Some(t));
    var c1 := Linked(c, t, m);
    var locks := Tsk(g, t).locks;
    var x := Tsk(g, t).(locks := locks + [m]);
    ChainPush(c.prevmtx, c.tcb[t].lastmtx, locks, m);
    ChainsStay(c0, g0, None);
    assert (locks + [m])[..|locks|] == locks;
    EffPriIsMin(g.obj, x.bpri, locks);
    assert EffPri(g.obj, x.bpri, x.locks) == Min(c.tcb[t].pri, Ceiling(g.obj, m));
    if Ceiling(g.obj, m) < c.tcb[t].pri { RelReplace(c0, c1, g0, t, x, true); } else { RelSame(c0, c1, g0, t, x); }
  }

  // ---------- mutex_drop_priority ----------

  /** Without a mutex whose ceiling is not the current priority, the priority is what it was. */
  lemma DropSame(obj: seq<Obj>, b: nat, locks: seq<nat>, m: nat)
    requires NoDup(locks) && b < TNUM_TPRI && m in locks
    requires !(IsCeil(obj, m) && Ceiling(obj, m) == EffPri(obj, b, locks))
    ensures EffPri(obj, b, Remove(locks, m)) == EffPri(obj, b, locks)
  {
    RemoveFacts(locks, m);
    EffPriIsMin(obj, b, locks);
    EffPriIsMin(obj, b, Remove(locks, m));
  }

  /** After mutex `m` has been taken out of the chain of task `t`. */
  function Dropped(c1: C, obj: seq<Obj>, t: nat, m: nat, n: nat): C
    requires t < |c1.tcb|
  {
    if IsCeil(obj, m) && Ceiling(obj, m) == c1.tcb[t].pri && n != c1.tcb[t].pri then Repri(c1, obj, t, n, true) else c1
  }

  lemma DropStep(c: C, c1: C, g: K, t: nat, m: nat)
    requires Models(c, g, None, None) && m in Tsk(g, t).locks && t < |c.tcb|
    requires |c1.prevmtx| == |c.prevmtx| && |c1.tcb| == |c.tcb|
    requires c1 == c.(tcb := c.tcb[t := c.tcb[t].(lastmtx := c1.tcb[t].lastmtx)], prevmtx := c1.prevmtx)
    requires Chain(c1.prevmtx, c1.tcb[t].lastmtx, Remove(Tsk(g, t).locks, m))
    requires forall z: nat :: z < |c.tcb| && z != t ==> Chain(c1.prevmtx, c.tcb[z].lastmtx, Tsk(g, z).locks)
    ensures var locks := Remove(Tsk(g, t).locks, m);
      && Models(Dropped(c1, g.obj, t, m, EffPri(g.obj, c.tcb[t].bpri, locks)), Relock(g, t, locks), None, Some(m))
      && Relock(g, t, locks).obj == g.obj
  {
    assert TaskAt(c.tcb, c.prevmtx, g, t, None) && LocksAt(g, t, None) && PriOk(g, t);
    var x := Tsk(g, t).(locks := Remove(Tsk(g, t).locks, m));
    DropCore(g, t, m);
    if EffPri(g.obj, x.bpri, x.locks) == Pri(g, t) {
      RelSame(c, c1, g, t, x);
    } else {
      if !(IsCeil(g.obj, m) && Ceiling(g.obj, m) == Pri(g, t)) { DropSame(g.obj, x.bpri, Tsk(g, t).locks, m); }
      RelReplace(c, c1, g, t, x, true);
    }
  }

  // ---------- taking a mutex out of the middle of a chain ----------

  /** The chain with the link behind `locks[j]` bent past it. */
  lemma {:induction false} ChainUnlink(prevmtx: seq<Option<nat>>, last: Option<nat>, locks: seq<nat>, j: nat)
    requires Chain(prevmtx, last, locks) && NoDup(locks) && j + 1 < |locks|
    ensures locks[j] < |prevmtx| && locks[j + 1] < |prevmtx|
    ensures Chain(prevmtx[locks[j + 1] := prevmtx[locks[j]]], last, locks[..j] + locks[j+1..])
    decreases |locks|
  {
    var n := |locks| - 1;
    var m, k := locks[j], locks[j + 1];
    var rest := locks[..n];
    var r := locks[..j] + locks[j+1..];
    assert Apart(locks, j + 1, n) || j + 1 == n;
    if j + 1 == n {
      assert rest == locks[..j] + [m] && r == locks[..j] + [k];
      assert rest[..j] == locks[..j] && r[..j] == locks[..j];
      assert Chain(prevmtx, prevmtx[m], locks[..j]);
      forall i | 0 <= i < j ensures locks[i] != k { assert Apart(locks, i, n); }
      ChainFrame(prevmtx, prevmtx[m], locks[..j], k, prevmtx[m]);
    } else {
      assert NoDup(rest) by { forall a, b | 0 <= a < b < n ensures Apart(rest, a, b) { assert Apart(locks, a, b); } }
      ChainUnlink(prevmtx, prevmtx[locks[n]], rest, j);
      assert r[..|r| - 1] == rest[..j] + rest[j+1..];
    }
  }

  /** What is left of a chain when its `j`th mutex is taken out, at the beginning or further on. */
  lemma ChainCut(prevmtx: seq<Option<nat>>, last: Option<nat>, locks: seq<nat>, j: nat)
    requires Chain(prevmtx, last, locks) && NoDup(locks) && j < |locks|
    ensures locks[j] < |prevmtx| && (j + 1 < |locks| ==> locks[j + 1] < |prevmtx|)
    ensures if j + 1 == |locks| then last == Some(locks[j]) else prevmtx[locks[j + 1]] == Some(locks[j])
    ensures if j + 1 == |locks| then Chain(prevmtx, prevmtx[locks[j]], Remove(locks, locks[j]))
            else Chain(prevmtx[locks[j + 1] := prevmtx[locks[j]]], last, Remove(locks, locks[j]))
  {
    forall i | 0 <= i < j ensures locks[i] != locks[j] { assert Apart(locks, i, j); }
    FirstIndex(locks, locks[j], j);
    if j + 1 == |locks| {
      assert Remove(locks, locks[j]) == locks[..j];
    } else {
      ChainUnlink(prevmtx, last, locks, j);
      ChainAt(prevmtx, last, locks, j + 1);
    }
  }

  /** The links followed from the start of a chain lead to its mutexes, the latest first. */
  lemma {:induction false} ChainAt(prevmtx: seq<Option<nat>>, last: Option<nat>, locks: seq<nat>, j: nat)
    requires Chain(prevmtx, last, locks) && j < |locks|
    ensures locks[j] < |prevmtx| && prevmtx[locks[j]] == if j == 0 then None else Some(locks[j - 1])
    decreases |locks|
  {
    var n := |locks| - 1;
    if j < n { ChainAt(prevmtx, prevmtx[locks[n]], locks[..n], j); }
  }

  // ---------- mutex_release ----------

  /** The control block of a task that gets mutex `m` handed over: the result of its wait, the link to the
      mutex, and the priority of a ceiling at once. */
  function HeirBlock(x: TCB, obj: seq<Obj>, m: nat): TCB {
    x.(winfo := Result(Ok), lastmtx := Some(m), pri := Min(x.pri, Ceiling(obj, m)))
  }

  /** The mutex and the control block of its new owner. */
  function Bequeathed(c: C, obj: seq<Obj>, w: nat, m: nat): C
    requires w < |c.tcb| && m < |c.loctsk| && m < |c.prevmtx|
  {
    c.(tcb := c.tcb[w := HeirBlock(c.tcb[w], obj, m)],
       loctsk := c.loctsk[m := Some(w)], prevmtx := c.prevmtx[m := c.tcb[w].lastmtx])
  }

  /** The first task that waits for mutex `m` becomes its owner. */
  function Inherited(c: C, obj: seq<Obj>, w: nat, m: nat): C
    requires w < |c.tcb| && m < |c.loctsk| && m < |c.prevmtx|
  {
    Bequeathed(OffTimer(OffQueue(c, w), w), obj, w, m)
  }

  lemma InheritLinks(c: C, w: nat, m: nat)
    requires w < |c.tcb| && m < |c.loctsk| && m < |c.prevmtx|
    ensures Linked(Answered(c, w, Ok), w, m) == c.(tcb := c.tcb[w := c.tcb[w].(winfo := Result(Ok), lastmtx := Some(m))],
       loctsk := c.loctsk[m := Some(w)], prevmtx := c.prevmtx[m := c.tcb[w].lastmtx])
  {
    var x := c.tcb[w].(winfo := Result(Ok));
    assert c.tcb[w := x][w := x.(lastmtx := Some(m))] == c.tcb[w := x.(lastmtx := Some(m))];
  }

  /** What `mutex_release` does when a task waits. */
  function Handover(c: C, obj: seq<Obj>, w: nat, m: nat): C
    requires w < |c.tcb| && c.tcb[w].stat.Waiting? && m < |c.loctsk| && m < |c.prevmtx|
  {
    NonWaiting(Inherited(c, obj, w, m), w)
  }

  /** The control block of the new owner. */
  function OwnerBlock(x: TCB, obj: seq<Obj>, m: nat): TCB {
    var y := HeirBlock(x, obj, m);
    y.(stat := if x.stat.Waiting? && x.stat.sus then Suspended else Runnable)
  }

  lemma HandoverRelocates(c: C, c0: C, obj: seq<Obj>, w: nat, m: nat)
    requires m < |c.wq| && c.wq[m] != [] && w < |c.tcb| && c.tcb[w].stat.Waiting? && m < |c.loctsk| && m < |c.prevmtx|
    requires c.wq[m][0] == w && c.tcb[w].stat.why == On(m)
    requires c0 == c.(loctsk := c.loctsk[m := Some(w)], prevmtx := c.prevmtx[m := c.tcb[w].lastmtx])
    ensures Relocated(c0, Handover(c, obj, w, m), w, OwnerBlock(c.tcb[w], obj, m), false)
  {
    NonWaitingIs(c, Inherited(c, obj, w, m), w, HeirBlock(c.tcb[w], obj, m));
    assert IndexOf(c.wq[m], w) == 0 && Remove(c.wq[m], w) == c.wq[m][1..];
  }

  lemma NonWaitingIs(c: C, c3: C, w: nat, x: TCB)
    requires w < |c.tcb| && x.stat.Waiting? && c3.tcb == c.tcb[w := x]
    ensures var y := x.(stat := if x.stat.sus then Suspended else Runnable);
      var tcb := c.tcb[w := y];
      NonWaiting(c3, w) == c3.(tcb := tcb, ready := if y.stat.Runnable? then Insert(Prios(tcb), c3.ready, w, false) else c3.ready)
  {
    var y := x.(stat := if x.stat.sus then Suspended else Runnable);
    assert c3.tcb[w := y] == c.tcb[w := y];
  }

  lemma ReleaseNoneStep(c: C, g: K, lim: Option<nat>, m: nat)
    requires Models(c, g, lim, Some(m)) && IsMtx(g.obj, m) && Que(g, m) == []
    ensures m < |c.loctsk| && Models(c.(loctsk := c.loctsk[m := None]), Release(g, m), lim, None) && Release(g, m).obj == g.obj
  {
    NobodyHas(g, m, lim, Some(m));
    ReleaseCore(g, m, lim);
    RelOwn(c, g, lim, m, None, c.prevmtx[m]);
    assert c.prevmtx[m := c.prevmtx[m]] == c.prevmtx;
  }

  lemma ReleaseNextStep(c: C, g: K, lim: Option<nat>, m: nat)
    requires Models(c, g, lim, Some(m)) && IsMtx(g.obj, m) && Que(g, m) != []
    ensures m < |c.wq| && c.wq[m] != [] && m < |c.loctsk| && m < |c.prevmtx|
    ensures var w := c.wq[m][0]; w < |c.tcb| && c.tcb[w].stat.Waiting?
    ensures Models(Handover(c, g.obj, c.wq[m][0], m), Release(g, m), lim, None) && Release(g, m).obj == g.obj
  {
    HeirFacts(c, g, lim, m);
    assert Rel(Handover(c, g.obj, c.wq[m][0], m), Release(g, m), lim) by { HeirRel(c, g, lim, m); }
    ReleaseKeepsLimbo(g, m, lim);
    ReleaseKeepsObj(g, m);
  }

  lemma ReleaseKeepsLimbo(g: K, m: nat, lim: Option<nat>)
    requires Core(g, lim, Some(m)) && IsMtx(g.obj, m) && (lim.Some? ==> Tsk(g, lim.value).stat.Dormant?)
    ensures Core(Release(g, m), lim, None) && (lim.Some? ==> Tsk(Release(g, m), lim.value).stat.Dormant?)
  {
    ReleaseCore(g, m, lim);
    if lim.Some? { LimboNowhere(g, lim.value); }
  }

  lemma ReleaseKeepsObj(g: K, m: nat)
    ensures Release(g, m).obj == g.obj
  {
    if Que(g, m) != [] {
      var w := Que(g, m)[0];
      var x := Released(Tsk(g, w), Ok).(locks := Tsk(g, w).locks + [m]);
      LeaveShape(g, w);
      JoinShape(SetTsk(Leave(g, w), w, x), w, false);
    }
  }

  lemma HeirFacts(c: C, g: K, lim: Option<nat>, m: nat)
    requires Models(c, g, lim, Some(m)) && Que(g, m) != []
    ensures var w := Que(g, m)[0];
      && w < |c.tcb| && c.tcb[w].stat.Waiting? && WaitsOn(g, w, m) && Some(w) != lim && m !in Tsk(g, w).locks
      && Pri(g, w) < TNUM_TPRI
  {
    var w := Que(g, m)[0];
    assert QueInv(g, m) && QueAt(g, m, w) && TaskAt(c.tcb, c.prevmtx, g, w, lim) && PriOk(g, w);
    assert LockAt(g, w, m, Some(m));
    EffPriIsMin(g.obj, Tsk(g, w).bpri, Tsk(g, w).locks);
  }

  lemma HeirRel(c: C, g: K, lim: Option<nat>, m: nat)
    requires Models(c, g, lim, Some(m)) && m < |c.wq| && c.wq[m] != [] && m < |c.loctsk| && m < |c.prevmtx|
    ensures var w := c.wq[m][0]; w < |c.tcb| && c.tcb[w].stat.Waiting? && Rel(Handover(c, g.obj, w, m), Release(g, m), lim)
  {
    var w := Que(g, m)[0];
    HeirFacts(c, g, lim, m);
    NobodyHas(g, m, lim, Some(m));
    RelOwn(c, g, lim, m, Some(w), c.tcb[w].lastmtx);
    OwnQueues(g, m, Some(w));
    assert TaskAt(c.tcb, c.prevmtx, g, w, lim);
    HandoverRel(c, g, lim, w, m);
  }

  lemma HandoverRel(c: C, g: K, lim: Option<nat>, w: nat, m: nat)
    requires m < |c.wq| && c.wq[m] != [] && w == c.wq[m][0] && m < |c.loctsk| && m < |c.prevmtx|
    requires w < |c.tcb| && WaitsOn(g, w, m) && Some(w) != lim && m !in Tsk(g, w).locks && TaskAt(c.tcb, c.prevmtx, g, w, lim)
    requires Rel(c.(loctsk := c.loctsk[m := Some(w)], prevmtx := c.prevmtx[m := c.tcb[w].lastmtx]), SetOwn(g, m, Some(w)), lim)
    requires lim.Some? ==> Tsk(g, lim.value).stat.Dormant?
    requires g.wq == c.wq && Pri(g, w) < TNUM_TPRI
    requires ReadyInv(SetOwn(g, m, Some(w))) && WaitInv(SetOwn(g, m, Some(w)))
    ensures c.tcb[w].stat.Waiting? && Rel(Handover(c, g.obj, w, m), Release(g, m), lim)
  {
    var c0 := c.(loctsk := c.loctsk[m := Some(w)], prevmtx := c.prevmtx[m := c.tcb[w].lastmtx]);
    var g0 := SetOwn(g, m, Some(w));
    var locks := Tsk(g, w).locks;
    var x := Released(Tsk(g, w), Ok).(locks := locks + [m]);
    ChainPush(c.prevmtx, c.tcb[w].lastmtx, locks, m);
    assert (locks + [m])[..|locks|] == locks;
    HandoverRelocates(c, c0, g.obj, w, m);
    RelStep(c0, Handover(c, g.obj, w, m), g0, lim, w, x, OwnerBlock(c.tcb[w], g.obj, m), false);
    PlaceOwn(g, w, x, m);
  }

  lemma PlaceOwn(g: K, w: nat, x: Task, m: nat)
    requires w < |g.tsk| && !x.stat.Waiting?
    ensures Place(SetOwn(g, m, Some(w)), w, x, false) == SetOwn(Place(g, w, x, false), m, Some(w))
  {
    LeaveOwn(g, w, m);
    LeaveShape(g, w);
    JoinOwn(SetTsk(Leave(g, w), w, x), w, m);
  }

  lemma LeaveOwn(g: K, w: nat, m: nat)
    ensures Leave(SetOwn(g, m, Some(w)), w) == SetOwn(Leave(g, w), m, Some(w))
  {
    match Tsk(g, w).stat
    case Waiting(why, _) => match why { case On(_) => case _ => }
    case _ =>
  }

  lemma JoinOwn(g: K, w: nat, m: nat)
    requires !Tsk(g, w).stat.Waiting?
    ensures Join(SetOwn(g, m, Some(w)), w, false) == SetOwn(Join(g, w, false), m, Some(w))
  {
    assert Pris(SetOwn(g, m, Some(w))) == Pris(g);
  }

  // ---------- task_terminate ----------

  /** The task has left its queue, and its control block does not say so yet. */
  function Gone(c: C, t: nat): C
    requires t < |c.tcb|
  {
    match c.tcb[t].stat
    case Runnable => c.(ready := Remove(c.ready, t))
    case Waiting(_, _) => OffTimer(OffQueue(c, t), t)
    case _ => c
  }

  lemma GoneStep(c: C, g: K, t: nat)
    requires Models(c, g, None, None) && t < |g.tsk|
    ensures t < |c.tcb| && Models(Gone(c, t), Place(g, t, Ended(Tsk(g, t)), false), Some(t), None)
    ensures Place(g, t, Ended(Tsk(g, t)), false).obj == g.obj
  {
    FitsSelf(g, t, None, None);
    CoreEnding(g, t);
    PlaceCore(g, t, Ended(Tsk(g, t)), false, Some(t), None);
    PlaceIdle(g, t, Ended(Tsk(g, t)), false);
    GoneRel(c, g, t);
  }

  lemma GoneRel(c: C, g: K, t: nat)
    requires Rel(c, g, None) && t < |g.tsk|
    ensures Rel(Gone(c, t), Place(g, t, Ended(Tsk(g, t)), false), Some(t))
  {
    var g1 := Place(g, t, Ended(Tsk(g, t)), false);
    PlaceIdle(g, t, Ended(Tsk(g, t)), false);
    assert TaskAt(c.tcb, c.prevmtx, g, t, None) && EventAt(c.tmev, g, t);
    forall z: nat ensures TaskAt(c.tcb, c.prevmtx, g1, z, Some(t)) && EventAt(Gone(c, t).tmev, g1, z) {
      assert TaskAt(c.tcb, c.prevmtx, g, z, None) && EventAt(c.tmev, g, z);
    }
  }

  /** The task in limbo drops the latest of its locks. */
  lemma ShedStep(c: C, g: K, t: nat)
    requires Models(c, g, Some(t), None) && t < |c.tcb| && c.tcb[t].lastmtx.Some?
    ensures var m := c.tcb[t].lastmtx.value;
      var locks := Tsk(g, t).locks;
      && m < |c.prevmtx| && locks != [] && locks[|locks| - 1] == m && IsMtx(g.obj, m)
      && Models(c.(tcb := c.tcb[t := c.tcb[t].(lastmtx := c.prevmtx[m])]),
                SetTsk(g, t, Tsk(g, t).(locks := locks[..|locks| - 1])), Some(t), Some(m))
  {
    assert TaskAt(c.tcb, c.prevmtx, g, t, Some(t));
    var locks := Tsk(g, t).locks;
    var n := |locks| - 1;
    var m := locks[n];
    assert LockAt(g, t, m, None) && OwnAt(g, m, None);
    ShedCore(g, t);
    var c1 := c.(tcb := c.tcb[t := c.tcb[t].(lastmtx := c.prevmtx[m])]);
    var g1 := SetTsk(g, t, Tsk(g, t).(locks := locks[..n]));
    forall z: nat ensures TaskAt(c1.tcb, c1.prevmtx, g1, z, Some(t)) && EventAt(c1.tmev, g1, z) {
      assert TaskAt(c.tcb, c.prevmtx, g, z, Some(t)) && EventAt(c.tmev, g, z);
    }
  }

  /** What `make_dormant` does. */
  function DormantBlock(x: TCB): TCB {
    x.(stat := Dormant, bpri := x.ipri, pri := x.ipri, wupque := false, raster := false, enater := true)
  }

  lemma DormantStep(c: C, g: K, t: nat)
    requires Rel(c, g, Some(t)) && Core(g, None, None) && t < |c.tcb| && Tsk(g, t).locks == []
    ensures Models(c.(tcb := c.tcb[t := DormantBlock(c.tcb[t])]), g, None, None)
  {
    var c1 := c.(tcb := c.tcb[t := DormantBlock(c.tcb[t])]);
    forall z: nat ensures TaskAt(c1.tcb, c1.prevmtx, g, z, None) && EventAt(c1.tmev, g, z) {
      assert TaskAt(c.tcb, c.prevmtx, g, z, Some(t)) && EventAt(c.tmev, g, z);
    }
  }

  // ---------- facts for the callers ----------

  lemma QueueMembers(c: C, g: K, lim: Option<nat>, free: Option<nat>, o: nat)
    requires Models(c, g, lim, free) && o < |c.wq|
    ensures forall i :: 0 <= i < |c.wq[o]| ==> c.wq[o][i] < |c.tcb|
  {
    assert QueInv(g, o);
    forall i | 0 <= i < |c.wq[o]| ensures c.wq[o][i] < |c.tcb| {
      assert c.wq[o][i] in Que(g, o) && QueAt(g, o, c.wq[o][i]);
    }
  }

  /** The first task of a wait queue. */
  lemma HeadFacts(c: C, g: K, lim: Option<nat>, free: Option<nat>, o: nat)
    requires Models(c, g, lim, free) && o < |c.wq| && c.wq[o] != []
    ensures var w := c.wq[o][0];
      && w < |c.tcb| && Some(w) != lim && WaitsOn(g, w, o)
      && OffQueue(c, w) == c.(wq := c.wq[o := c.wq[o][1..]])
  {
    var w := c.wq[o][0];
    assert QueInv(g, o) && w in Que(g, o) && QueAt(g, o, w) && TaskAt(c.tcb, c.prevmtx, g, w, lim);
    assert IndexOf(c.wq[o], w) == 0 && Remove(c.wq[o], w) == c.wq[o][1..];
  }

  /** It does not matter which of the two a released task leaves first. */
  lemma TimerFirst(c: C, t: nat)
    requires t < |c.tcb| && c.tcb[t].stat.Waiting?
    ensures c.tcb[t].stat.why == Delay ==> NonWaiting(Answered(OffTimer(c, t), t, Ok), t) == Unwaiting(c, t, Ok)
    ensures NonWaiting(Answered(OffQueue(OffTimer(c, t), t), t, ETmout), t) == Unwaiting(c, t, ETmout)
  {
    assert OffQueue(OffTimer(c, t), t) == OffTimer(OffQueue(c, t), t);
  }

  /** All that the release of a waiting task relies on. */
  lemma UnwaitReady(c: C, g: K, t: nat, er: ER)
    requires Models(c, g, None, None) && IsWaiting(g, t)
    ensures t < |c.tcb| && t !in c.ready && c.tcb[t].stat.Waiting? && c.tcb[t].pri < LEVELS
    ensures c.tcb[t].winfo.Timer? && (t in c.tmev <==> c.tcb[t].winfo.on)
    ensures Models(Unwaiting(c, t, er), Unwait(g, t, er), None, None) && Unwait(g, t, er).obj == g.obj
  {
    UnwaitStep(c, g, None, None, t, er);
    TaskFacts(c, g, None, None, t);
  }

  lemma BlockReady(c: C, g: K, t: nat, o: nat, timed: bool)
    requires Models(c, g, None, None) && IsRunnable(g, t) && !Tsk(g, t).raster && MayWait(g, t, o)
    requires IsCeil(g.obj, o) ==> Ceiling(g.obj, o) <= Tsk(g, t).bpri
    ensures t < |c.tcb| && t in c.ready && o < |c.wq| && forall i :: 0 <= i < |c.wq[o]| ==> c.wq[o][i] < |c.tcb|
    ensures Models(Enqueued(Asleep(c, t, On(o), timed), t, o, ByPriority(g.obj, o)), Block(g, t, On(o), timed), None, None)
    ensures Block(g, t, On(o), timed).obj == g.obj
  {
    BlockStep(c, g, t, o, timed);
    TaskFacts(c, g, None, None, t);
    QueueMembers(c, g, None, None, o);
  }

  lemma GoneReady(c: C, g: K, t: nat)
    requires Models(c, g, None, None) && t < |c.tcb|
    ensures c.tcb[t].stat.Runnable? <==> t in c.ready
    ensures c.tcb[t].stat.Waiting? ==> c.tcb[t].winfo.Timer? && (t in c.tmev <==> c.tcb[t].winfo.on)
    ensures var g1 := Place(g, t, Ended(Tsk(g, t)), false); Models(Gone(c, t), g1, Some(t), None) && g1.obj == g.obj
  {
    GoneStep(c, g, t);
    TaskFacts(c, g, None, None, t);
  }

  lemma HeadReady(c: C, g: K, o: nat, er: ER)
    requires Models(c, g, None, None) && o < |c.wq| && c.wq[o] != []
    ensures var t := c.wq[o][0];
      && t < |c.tcb| && t !in c.ready && c.tcb[t].stat.Waiting? && c.tcb[t].pri < LEVELS
      && c.tcb[t].winfo.Timer? && (t in c.tmev <==> c.tcb[t].winfo.on)
      && OffQueue(c, t) == c.(wq := c.wq[o := c.wq[o][1..]])
      && Models(Unwaiting(c, t, er), Unwait(g, t, er), None, None) && Unwait(g, t, er).obj == g.obj
  {
    HeadFacts(c, g, None, None, o);
    UnwaitReady(c, g, c.wq[o][0], er);
  }

  lemma HandoverStep(c: C, g: K, lim: Option<nat>, m: nat)
    requires Models(c, g, lim, Some(m)) && IsMtx(g.obj, m) && m < |c.wq| && c.wq[m] != []
    ensures m < |c.loctsk| && m < |c.prevmtx|
    ensures var w := c.wq[m][0];
      && w < |c.tcb| && w !in c.ready && c.tcb[w].stat.Waiting? && c.tcb[w].pri < LEVELS
      && c.tcb[w].winfo.Timer? && (w in c.tmev <==> c.tcb[w].winfo.on)
      && OffQueue(c, w) == c.(wq := c.wq[m := c.wq[m][1..]])
    ensures Models(Handover(c, g.obj, c.wq[m][0], m), Release(g, m), lim, None) && Release(g, m).obj == g.obj
  {
    HeadFacts(c, g, lim, Some(m), m);
    TaskFacts(c, g, lim, Some(m), c.wq[m][0]);
    ReleaseNextStep(c, g, lim, m);
  }

  /** A release concerns nobody but the heir. */
  lemma ReleasedStays(g: K, m: nat, t: nat)
    requires Core(g, Some(t), Some(m)) && IsMtx(g.obj, m) && Tsk(g, t).stat.Dormant?
    ensures Tsk(Release(g, m), t) == Tsk(g, t) && |Release(g, m).tsk| == |g.tsk|
  {
    ReleaseCore(g, m, Some(t));
    LimboNowhere(g, t);
  }

  lemma LimboChain(c: C, g: K, t: nat)
    requires Rel(c, g, Some(t)) && t < |c.tcb|
    ensures c.tcb[t].lastmtx == None <==> Tsk(g, t).locks == []
  {
    assert TaskAt(c.tcb, c.prevmtx, g, t, Some(t));
  }

  lemma FlagCore(c: C, g: K, t: nat, y: TCB)
    requires Models(c, g, None, None) && t < |c.tcb| && TaskOk(ToTask(y, Tsk(g, t).locks))
    requires y == c.tcb[t].(stat := y.stat, actque := y.actque, wupque := y.wupque, raster := y.raster, enater := y.enater)
    requires y.stat == c.tcb[t].stat || (y.stat.Waiting? && c.tcb[t].stat.Waiting? && y.stat.why == c.tcb[t].stat.why)
    ensures Core(SetTsk(g, t, ToTask(y, Tsk(g, t).locks)), None, None)
  {
    var x := ToTask(y, Tsk(g, t).locks);
    assert TaskAt(c.tcb, c.prevmtx, g, t, None);
    FitsSelf(g, t, None, None);
    forall o: nat ensures CeilFitsAt(g.obj, x, o) { assert CeilFitsAt(g.obj, Tsk(g, t), o); }
    SetCore(g, t, x, None, None);
  }

  lemma DispatchStep(c: C, g: K, sched: Option<nat>)
    requires Models(c, g, None, None)
    requires sched == if c.dspflg then Head(c.ready) else c.runtsk
    ensures sched == Sched(g) && Models(c.(runtsk := sched), Dispatch(g), None, None)
  {
    if c.dspflg && c.ready != [] { assert c.ready[0] in g.ready && ReadyAt(g, c.ready[0]); }
    var g1 := Dispatch(g);
    SameCore(g, g1);
    forall z: nat ensures TaskAt(c.tcb, c.prevmtx, g1, z, None) && EventAt(c.tmev, g1, z) {
      assert TaskAt(c.tcb, c.prevmtx, g, z, None) && EventAt(c.tmev, g, z);
    }
  }
}
