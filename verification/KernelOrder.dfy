/** First come, first served: in which order tasks stand in the precedence list and in the wait queues after
    each step. */
module KernelOrder {
  import opened PriorityList
  import opened KernelSpec
  import opened KernelInv
  import opened KernelOps
  import opened KernelRuns
  import opened KernelEffects
  import opened KernelTheorems

  /** Whoever is ahead of whom stays so, in the precedence list and in every wait queue. */
  ghost predicate Kept2(s: K, s1: K, a: nat, b: nat) {
    && (Before(s.ready, a, b) ==> Before(s1.ready, a, b))
    && (forall o: nat :: QueueKept(s, s1, a, b, o))
  }

  ghost predicate QueueKept(s: K, s1: K, a: nat, b: nat, o: nat) { Before(Que(s, o), a, b) ==> Before(Que(s1, o), a, b) }

  lemma KeptOn(s: K, s1: K, s2: K, a: nat, b: nat)
    requires Kept2(s, s1, a, b) && Kept2(s1, s2, a, b)
    ensures Kept2(s, s2, a, b)
  {
    forall o: nat ensures QueueKept(s, s2, a, b, o) { assert QueueKept(s, s1, a, b, o) && QueueKept(s1, s2, a, b, o); }
  }

  lemma SameLists(s: K, s1: K, a: nat, b: nat)
    requires s1.ready == s.ready && s1.wq == s.wq
    ensures Kept2(s, s1, a, b)
  {
    forall o: nat ensures QueueKept(s, s1, a, b, o) {}
  }

  lemma PlaceKeeps(s: K, t: nat, x: Task, front: bool, a: nat, b: nat)
    requires t < |s.tsk| && a != t && b != t
    ensures Kept2(s, Place(s, t, x, front), a, b)
  {
    OthersKeepOrder(s, t, x, front, a, b, 0);
    forall o: nat ensures QueueKept(s, Place(s, t, x, front), a, b, o) { OthersKeepOrder(s, t, x, front, a, b, o); }
  }

  lemma RelockKeeps(s: K, t: nat, locks: seq<nat>, a: nat, b: nat)
    requires t < |s.tsk| && a != t && b != t
    ensures Kept2(s, Relock(s, t, locks), a, b)
  {
    var x := Tsk(s, t).(locks := locks);
    if EffPri(s.obj, x.bpri, locks) == Pri(s, t) { SameLists(s, SetTsk(s, t, x), a, b); } else { ReplaceKeeps(s, t, x, true, a, b); }
  }

  lemma ReplaceKeeps(s: K, t: nat, x: Task, front: bool, a: nat, b: nat)
    requires t < |s.tsk| && a != t && b != t
    ensures Kept2(s, Replace(s, t, x, front), a, b)
  {
    if x.stat.Waiting? && !(x.stat.why.On? && ByPriority(s.obj, x.stat.why.obj)) { SameLists(s, SetTsk(s, t, x), a, b); }
    else { PlaceKeeps(s, t, x, front, a, b); }
  }

  lemma ReleaseKeeps(s: K, m: nat, a: nat, b: nat)
    requires Que(s, m) != [] ==> Que(s, m)[0] < |s.tsk| && a != Que(s, m)[0] && b != Que(s, m)[0]
    ensures Kept2(s, Release(s, m), a, b)
  {
    if Que(s, m) == [] {
      SameLists(s, Release(s, m), a, b);
    } else {
      var w := Que(s, m)[0];
      var x := Heir(s, w, m);
      PlaceKeeps(s, w, x, false, a, b);
      SameLists(Place(s, w, x, false), Release(s, m), a, b);
      KeptOn(s, Place(s, w, x, false), Release(s, m), a, b);
    }
  }

  // ---------- newcomers ----------

  /** Placed among the runnable tasks, a task stands behind all of the same or a better priority. */
  lemma PlacedBehind(s: K, t: nat, x: Task, y: nat)
    requires WellFormed(s) && ReadyInv(s) && WaitInv(s) && t < |s.tsk| && x.stat.Runnable? && y in s.ready && y != t
    requires Pri(s, y) <= EffPri(s.obj, x.bpri, x.locks)
    ensures Before(Place(s, t, x, false).ready, y, t)
  {
    var s1 := Place(s, t, x, false);
    LeaveFacts(s, t);
    LeaveReady(s, t);
    LeaveShape(s, t);
    var s2 := SetTsk(Leave(s, t), t, x);
    SetFacts(Leave(s, t), t, x);
    assert ReadyAt(s, y) && s1.ready == Insert(Pris(s2), s2.ready, t, false);
    assert Pri(s2, y) == Pri(s, y);
    InsertedBehind(Pris(s2), s2.ready, t, y);
  }

  // ---------- fair steps ----------

  /** The task has not been told, given or robbed of anything that has to do with its place. */
  predicate Unmoved(k: K, k1: K, y: nat) {
    var x, x1 := Tsk(k, y), Tsk(k1, y);
    && x1.locks == x.locks && x1.bpri == x.bpri && (x.actque ==> x1.actque)
    && (x1.stat == x.stat || (x1.stat.Waiting? && x.stat.Waiting? && x1.stat.why == x.stat.why))
  }

  ghost predicate FairAt(k: K, k1: K, a: nat, b: nat) { Unmoved(k, k1, a) && Unmoved(k, k1, b) ==> Kept2(k, k1, a, b) }

  ghost predicate NewAt(k: K, k1: K, y: nat, t: nat) {
    Unmoved(k, k1, y) && IsRunnable(k, y) && !IsRunnable(k, t) && IsRunnable(k1, t) && Pri(k, y) <= Pri(k1, t)
    ==> Before(k1.ready, y, t)
  }

  /** The tasks other than `z` keep their order, and new ones come behind them. */
  ghost predicate FairBut(k: K, k1: K, z: nat) {
    && (forall a: nat, b: nat :: a != z && b != z ==> FairAt(k, k1, a, b))
    && (forall y: nat, t: nat :: y != z ==> NewAt(k, k1, y, t))
  }

  lemma StayFair(k: K, k1: K, z: nat)
    requires k1.ready == k.ready && k1.wq == k.wq && forall t: nat :: IsRunnable(k1, t) ==> IsRunnable(k, t)
    ensures FairBut(k, k1, z)
  {
    forall a: nat, b: nat ensures FairAt(k, k1, a, b) { SameLists(k, k1, a, b); }
    forall y: nat, t: nat ensures NewAt(k, k1, y, t) {}
  }

  /** One task moves. */
  lemma MoveFair(k: K, k1: K, t: nat, x: Task, z: nat)
    requires Inv(k) && t < |k.tsk| && k1 == Place(k, t, x, false).(run := k1.run)
    requires t == z || (x.stat != Tsk(k, t).stat && !(x.stat.Waiting? && Tsk(k, t).stat.Waiting?)) || (Tsk(k, t).actque && !x.actque)
    ensures FairBut(k, k1, z)
  {
    var s := Place(k, t, x, false);
    PlaceMoved(k, t, x, false);
    forall a: nat, b: nat | a != z && b != z ensures FairAt(k, k1, a, b) {
      if Unmoved(k, k1, a) && Unmoved(k, k1, b) {
        PlaceKeeps(k, t, x, false, a, b);
        SameLists(s, k1, a, b);
        KeptOn(k, s, k1, a, b);
      }
    }
    forall y: nat, u: nat | y != z ensures NewAt(k, k1, y, u) {
      if Unmoved(k, k1, y) && IsRunnable(k, y) && !IsRunnable(k, u) && IsRunnable(k1, u) && Pri(k, y) <= Pri(k1, u) {
        assert ReadyAt(k, y);
        PlacedBehind(k, t, x, y);
      }
    }
  }

  lemma ActTskFair(k: K, t: nat)
    requires Inv(k)
    ensures FairBut(k, ActTsk(k, t).0, |k.tsk|)
  {
    var k1 := ActTsk(k, t).0;
    if ActTsk(k, t).1 == Ok && Tsk(k, t).stat.Dormant? { MoveFair(k, k1, t, Tsk(k, t).(stat := Runnable), |k.tsk|); }
    else { StayFair(k, k1, |k.tsk|); }
  }

  lemma ChgPriFair(k: K, t: nat, p: nat)
    requires Inv(k)
    ensures FairBut(k, ChgPri(k, t, p).0, t)
  {
    var k1, x := ChgPri(k, t, p).0, Tsk(k, t).(bpri := if p == 0 then Tsk(k, t).ipri else p - 1);
    if ChgPri(k, t, p).1 == Ok && !HoldsCeil(k, t) && !(x.stat.Waiting? && !(x.stat.why.On? && ByPriority(k.obj, x.stat.why.obj))) {
      MoveFair(k, k1, t, x, t);
    } else {
      StayFair(k, k1, t);
    }
  }

  lemma BlockFair(k: K, why: Reason, timed: bool)
    requires Inv(k) && k.run.Some?
    ensures FairBut(k, Dispatch(Block(k, Self(k), why, timed)), |k.tsk|)
  {
    MoveFair(k, Dispatch(Block(k, Self(k), why, timed)), Self(k), Asleep(Tsk(k, Self(k)), why, timed), |k.tsk|);
  }

  lemma UnwaitFair(k: K, t: nat, er: ER)
    requires Inv(k) && IsWaiting(k, t)
    ensures FairBut(k, Resched(Unwait(k, t, er)), |k.tsk|)
  {
    MoveFair(k, Resched(Unwait(k, t, er)), t, Released(Tsk(k, t), er), |k.tsk|);
  }

  lemma SusTskFair(k: K, t: nat)
    requires Inv(k)
    ensures FairBut(k, SusTsk(k, t).0, |k.tsk|)
  {
    var k1 := SusTsk(k, t).0;
    if SusTsk(k, t).1 == Ok && Tsk(k, t).stat.Runnable? { MoveFair(k, k1, t, Tsk(k, t).(stat := Suspended), |k.tsk|); }
    else { StayFair(k, k1, |k.tsk|); }
  }

  lemma RsmTskFair(k: K, t: nat)
    requires Inv(k)
    ensures FairBut(k, RsmTsk(k, t).0, |k.tsk|)
  {
    var k1 := RsmTsk(k, t).0;
    if RsmTsk(k, t).1 == Ok && Tsk(k, t).stat.Suspended? { MoveFair(k, k1, t, Tsk(k, t).(stat := Runnable), |k.tsk|); }
    else { StayFair(k, k1, |k.tsk|); }
  }

  // ---------- several tasks move ----------

  /** Tasks that are not released keep their order, and stay ahead of those of no better priority that are. */
  lemma {:induction false} UnwaitAllOrder(s: K, o: nat, q: seq<nat>, er: ER, a: nat, b: nat)
    requires Core(s, None, None) && q == Que(s, o) && a !in q
    ensures var s1 := UnwaitAll(s, q, er);
      && (b !in q ==> Kept2(s, s1, a, b))
      && (b in q && a in s.ready && Pri(s, a) <= Pri(s, b) && IsRunnable(s1, b) ==> Before(s1.ready, a, b))
    decreases |q|
  {
    if q == [] {
      SameLists(s, s, a, b);
    } else {
      var w := q[0];
      var s1, s2 := Unwait(s, w, er), UnwaitAll(s, q, er);
      assert QueInv(s, o) && QueAt(s, o, w);
      UnwaitHead(s, o, er);
      PlaceMoved(s, w, Released(Tsk(s, w), er), false);
      HeadOnce(q);
      assert forall y :: y in q <==> y == w || y in q[1..];
      UnwaitAllOrder(s1, o, q[1..], er, a, b);
      if b != w {
        PlaceKeeps(s, w, Released(Tsk(s, w), er), false, a, b);
        if b !in q { KeptOn(s, s1, s2, a, b); }
        else if a in s.ready && Pri(s, a) <= Pri(s, b) && IsRunnable(s2, b) { StillReady(s, s1, w, a); }
      } else if a in s.ready && Pri(s, a) <= Pri(s, b) && IsRunnable(s2, b) {
        UnwaitAllFates(s1, o, q[1..], er);
        assert ReleasedAt(s1, s2, q[1..], er, w);
        PlacedBehind(s, w, Released(Tsk(s, w), er), a);
      }
    }
  }

  lemma StillReady(s: K, s1: K, w: nat, a: nat)
    requires ReadyInv(s) && ReadyInv(s1) && a in s.ready && a != w && |s1.tsk| == |s.tsk| && Tsk(s1, a) == Tsk(s, a)
    ensures a in s1.ready
  {
    assert ReadyAt(s, a) && ReadyAt(s1, a);
  }

  lemma IniSemFair(k: K, o: nat)
    requires Inv(k)
    ensures FairBut(k, IniSem(k, o).0, |k.tsk|)
  {
    var k1 := IniSem(k, o).0;
    if IniSem(k, o).1 != Ok {
      StayFair(k, k1, |k.tsk|);
    } else {
      ClearedOut(k, o);
      ClearedFair(k, o, UnwaitAll(k, Que(k, o), EDlt), k1);
    }
  }

  /** All tasks of a queue have been released. */
  lemma ClearedFair(k: K, o: nat, s: K, k1: K)
    requires Inv(k) && s == UnwaitAll(k, Que(k, o), EDlt) && |s.tsk| == |k.tsk| && s.obj == k.obj
    requires k1.ready == s.ready && k1.wq == s.wq && k1.tsk == s.tsk && k1.obj == s.obj
    requires forall y: nat :: ClearedAt(k, s, o, y)
    ensures FairBut(k, k1, |k.tsk|)
  {
    assert QueInv(k, o);
    forall a: nat, b: nat ensures FairAt(k, k1, a, b) {
      assert ClearedAt(k, s, o, a) && ClearedAt(k, s, o, b) && QueAt(k, o, a) && QueAt(k, o, b);
      if Unmoved(k, k1, a) && Unmoved(k, k1, b) {
        UnwaitAllOrder(k, o, Que(k, o), EDlt, a, b);
        SameLists(s, k1, a, b);
        KeptOn(k, s, k1, a, b);
      }
    }
    forall y: nat, t: nat ensures NewAt(k, k1, y, t) {
      assert ClearedAt(k, s, o, y) && ClearedAt(k, s, o, t) && QueAt(k, o, y) && QueAt(k, o, t) && ReadyAt(k, y);
      if IsRunnable(k, y) && !IsRunnable(k, t) && IsRunnable(k1, t) && Pri(k, y) <= Pri(k1, t) {
        assert Pri(k1, t) == Pri(k, t);
        UnwaitAllOrder(k, o, Que(k, o), EDlt, y, t);
      }
    }
  }

  /** A fair step, and then one that takes a lock from task `h`. */
  lemma RelockFair(k: K, s: K, h: nat, locks: seq<nat>, k1: K)
    requires FairBut(k, s, |k.tsk|) && h < |s.tsk| && |s.tsk| == |k.tsk| && Tsk(s, h) == Tsk(k, h) && Tsk(k, h).locks != locks
    requires ReadyInv(s) && WaitInv(s) && WellFormed(s)
    requires var s2 := Relock(s, h, locks); k1.ready == s2.ready && k1.wq == s2.wq && k1.tsk == s2.tsk && k1.obj == s2.obj
    ensures FairBut(k, k1, |k.tsk|)
  {
    var s2 := Relock(s, h, locks);
    RelockFacts(s, h, locks);
    forall a: nat, b: nat | a != |k.tsk| && b != |k.tsk| ensures FairAt(k, k1, a, b) {
      assert FairAt(k, s, a, b);
      if Unmoved(k, k1, a) && Unmoved(k, k1, b) {
        RelockKeeps(s, h, locks, a, b);
        SameLists(s2, k1, a, b);
        KeptOn(s, s2, k1, a, b);
        KeptOn(k, s, k1, a, b);
      }
    }
    forall y: nat, t: nat | y != |k.tsk| ensures NewAt(k, k1, y, t) {
      assert NewAt(k, s, y, t);
      if Unmoved(k, k1, y) && IsRunnable(k, y) && !IsRunnable(k, t) && IsRunnable(k1, t) && Pri(k, y) <= Pri(k1, t) && t != h {
        RelockKeeps(s, h, locks, y, t);
      }
    }
  }

  lemma IniMtxFair(k: K, m: nat)
    requires Inv(k)
    ensures FairBut(k, IniMtx(k, m).0, |k.tsk|)
  {
    var k1 := IniMtx(k, m).0;
    if IniMtx(k, m).1 != Ok {
      StayFair(k, k1, |k.tsk|);
    } else {
      ClearedOut(k, m);
      var s := UnwaitAll(k, Que(k, m), EDlt);
      if Own(s, m).Some? {
        ClearedFair(k, m, s, s);
        var h := Own(s, m).value;
        assert OwnAt(s, m, None) && LocksAt(s, h, None) && ClearedAt(k, s, m, h);
        RemoveFacts(Tsk(s, h).locks, m);
        OwnerWaitsNot(k, m);
        RelockFair(k, s, h, Remove(Tsk(s, h).locks, m), k1);
      } else {
        ClearedFair(k, m, s, k1);
      }
    }
  }

  lemma UnlMtxFair(k: K, m: nat)
    requires Inv(k) && (k.ctx || k.run.Some?)
    ensures FairBut(k, UnlMtx(k, m).0, |k.tsk|)
  {
    var k1 := UnlMtx(k, m).0;
    if UnlMtx(k, m).1 != Ok { StayFair(k, k1, |k.tsk|); } else { UnlockFair(k, m); }
  }

  lemma UnlockFair(k: K, m: nat)
    requires Inv(k) && k.run.Some? && UnlMtx(k, m).1 == Ok
    ensures FairBut(k, UnlMtx(k, m).0, |k.tsk|)
  {
    var t, k1 := Self(k), UnlMtx(k, m).0;
    var locks := Remove(Tsk(k, t).locks, m);
    var s := Relock(k, t, locks);
    DropIs(k, t, m);
    DropCore(k, t, m);
    if Que(k, m) != [] { HeadWaits(k, m); }
    assert k1 == Dispatch(Release(s, m));
    forall a: nat, b: nat ensures Kept2(k, s, a, b) || a == t || b == t { if a != t && b != t { RelockKeeps(k, t, locks, a, b); } }
    HandedFair(k, s, t, m, k1);
  }

  /** `s` is `k` without a lock of task `t`, which then goes to the heir. */
  lemma HandedFair(k: K, s: K, t: nat, m: nat, k1: K)
    requires t < |k.tsk| && Alone(k, s, t, Tsk(s, t)) && Tsk(s, t).locks != Tsk(k, t).locks && IsRunnable(k, t)
    requires WellFormed(s) && ReadyInv(s) && WaitInv(s) && m < |s.own| && Que(s, m) == Que(k, m)
    requires Tsk(s, t).stat == Tsk(k, t).stat && k1 == Dispatch(Release(s, m))
    requires Que(k, m) != [] ==> WaitsOn(k, Que(k, m)[0], m) && Que(k, m)[0] < |k.tsk|
    requires forall a: nat, b: nat :: a != t && b != t ==> Kept2(k, s, a, b)
    ensures FairBut(k, k1, |k.tsk|)
  {
    var s2 := Release(s, m);
    ReleaseFates(s, m);
    forall y: nat ensures Unmoved(k, k1, y) ==> y != t && (Que(s, m) != [] ==> y != Que(s, m)[0]) { assert Tsk(k1, y) == HeirFate(s, m, y); }
    forall a: nat, b: nat | a != |k.tsk| && b != |k.tsk| ensures FairAt(k, k1, a, b) {
      if Unmoved(k, k1, a) && Unmoved(k, k1, b) {
        ReleaseKeeps(s, m, a, b);
        SameLists(s2, k1, a, b);
        KeptOn(k, s, s2, a, b);
        KeptOn(k, s2, k1, a, b);
      }
    }
    forall y: nat, u: nat | y != |k.tsk| ensures NewAt(k, k1, y, u) {
      assert Tsk(k1, u) == HeirFate(s, m, u);
      if Unmoved(k, k1, y) && IsRunnable(k, y) { HeirBehind(s, m, y); }
    }
  }

  /** The heir of a mutex stands behind all of the same or a better priority. */
  lemma HeirBehind(s: K, m: nat, y: nat)
    requires WellFormed(s) && ReadyInv(s) && WaitInv(s) && IsRunnable(s, y) && m < |s.own|
    ensures var s1 := Release(s, m);
      Que(s, m) != [] && IsRunnable(s1, Que(s, m)[0]) && Pri(s, y) <= Pri(s1, Que(s, m)[0]) ==> Before(s1.ready, y, Que(s, m)[0])
  {
    if Que(s, m) != [] {
      var w := Que(s, m)[0];
      var x := Heir(s, w, m);
      assert QueInv(s, m) && QueAt(s, m, w) && ReadyAt(s, y);
      PlaceMoved(s, w, x, false);
      if x.stat.Runnable? && Pri(s, y) <= Pri(Release(s, m), w) { PlacedBehind(s, w, x, y); }
    }
  }

  // ---------- the end of a task ----------

  predicate IsHeir(s: K, locks: seq<nat>, y: nat) { LegacyFate(s, locks, y) != Tsk(s, y) }

  /** The latest lock of an ended task is given up. */
  lemma GiveUpLatest(s: K, t: nat, locks: seq<nat>)
    requires Core(s, Some(t), None) && t < |s.tsk| && Tsk(s, t).stat.Dormant? && Tsk(s, t).locks == locks && locks != []
    ensures var n := |locks| - 1;
      var s1 := SetTsk(s, t, Tsk(s, t).(locks := locks[..n]));
      var s2 := Release(s1, locks[n]);
      && WellFormed(s1) && ReadyInv(s1) && WaitInv(s1) && locks[n] < |s1.own|
      && Core(s2, Some(t), None) && |s2.tsk| == |s.tsk| && s2.obj == s.obj
      && Tsk(s2, t) == Tsk(s, t).(locks := locks[..n])
      && (forall y: nat :: Tsk(s2, y) == HeirFate(s1, locks[n], y))
      && (forall o: nat :: o != locks[n] ==> Que(s2, o) == Que(s, o))
      && (Que(s, locks[n]) != [] ==> WaitsOn(s, Que(s, locks[n])[0], locks[n]) && Que(s, locks[n])[0] < |s.tsk|)
      && QueInv(s, locks[n]) && locks[n] !in locks[..n] && forall o :: o in locks <==> o == locks[n] || o in locks[..n]
  {
    var n := |locks| - 1;
    var m := locks[n];
    var s1 := SetTsk(s, t, Tsk(s, t).(locks := locks[..n]));
    ShedCore(s, t);
    assert LockAt(s, t, m, None) && OwnAt(s, m, None) && LocksAt(s, t, Some(t));
    assert QueInv(s1, m) && QueAt(s1, m, t) && QueInv(s, m);
    if Que(s, m) != [] { assert QueAt(s, m, Que(s, m)[0]); }
    ReleaseCore(s1, m, Some(t));
    ReleaseFates(s1, m);
    LastNotEarlier(locks);
  }

  /** What giving up locks does to the order of two tasks, of whom `a` inherits nothing. */
  ghost predicate OrderedAt(s: K, s1: K, locks: seq<nat>, a: nat, b: nat) {
    && (!IsHeir(s, locks, b) ==> Kept2(s, s1, a, b))
    && (IsHeir(s, locks, b) && IsRunnable(s, a) && IsRunnable(s1, b) && Pri(s, a) <= Pri(s1, b) ==> Before(s1.ready, a, b))
  }

  lemma {:induction false} ReleaseAllOrder(s: K, t: nat, locks: seq<nat>, a: nat, b: nat)
    requires Core(s, Some(t), None) && t < |s.tsk| && Tsk(s, t).stat.Dormant? && Tsk(s, t).locks == locks
    requires a != t && b != t && !IsHeir(s, locks, a)
    ensures OrderedAt(s, ReleaseAll(s, t, locks), locks, a, b)
    decreases |locks|
  {
    if locks == [] {
      SameLists(s, s, a, b);
    } else {
      var n := |locks| - 1;
      var m := locks[n];
      var s1 := SetTsk(s, t, Tsk(s, t).(locks := locks[..n]));
      var s2, s3 := Release(s1, m), ReleaseAll(s, t, locks);
      assert s3 == ReleaseAll(s2, t, locks[..n]);
      OneLockLess(s, t, locks, a, b);
      ReleaseAllOrder(s2, t, locks[..n], a, b);
      if Que(s, m) != [] && Que(s, m)[0] == b {
        RestLegacy(s2, t, locks[..n], b);
        HeirFirst(s, s1, s2, s3, t, m, locks, a, b);
      } else {
        NotHeirFirst(s, s1, s2, s3, t, m, locks, a, b);
      }
    }
  }

  lemma RestLegacy(s: K, t: nat, locks: seq<nat>, b: nat)
    requires Core(s, Some(t), None) && t < |s.tsk| && Tsk(s, t).stat.Dormant? && Tsk(s, t).locks == locks && b != t
    ensures LegacyAt(s, ReleaseAll(s, t, locks), locks, b) && ReleaseAll(s, t, locks).obj == s.obj
  {
    ReleaseAllFates(s, t, locks);
  }

  /** Another record of `t`, and nothing else. */
  ghost predicate SameBut(s: K, s1: K, t: nat) {
    && |s1.tsk| == |s.tsk| && s1.obj == s.obj && s1.wq == s.wq && s1.ready == s.ready
    && forall y: nat :: y != t ==> Tsk(s1, y) == Tsk(s, y)
  }

  /** What giving up the latest lock means for two other tasks, of whom `a` inherits nothing. */
  lemma OneLockLess(s: K, t: nat, locks: seq<nat>, a: nat, b: nat)
    requires Core(s, Some(t), None) && t < |s.tsk| && Tsk(s, t).stat.Dormant? && Tsk(s, t).locks == locks && locks != []
    requires a != t && b != t && !IsHeir(s, locks, a)
    ensures var n := |locks| - 1;
      var m, s1 := locks[n], SetTsk(s, t, Tsk(s, t).(locks := locks[..n]));
      var s2 := Release(s1, m);
      && SameBut(s, s1, t) && WellFormed(s1) && ReadyInv(s1) && WaitInv(s1) && m < |s1.own|
      && Core(s2, Some(t), None) && |s2.tsk| == |s.tsk| && s2.obj == s.obj
      && Tsk(s2, t).stat.Dormant? && Tsk(s2, t).locks == locks[..n]
      && Tsk(s2, b) == HeirFate(s1, m, b) && Tsk(s2, a) == Tsk(s, a) && !IsHeir(s2, locks[..n], a)
      && LegacyFate(s2, locks[..n], b) == LegacyFate(s, locks, b)
      && (Que(s, m) != [] ==> WaitsOn(s, Que(s, m)[0], m) && Que(s, m)[0] < |s.tsk| && Que(s, m)[0] != a)
  {
    var n := |locks| - 1;
    var s1 := SetTsk(s, t, Tsk(s, t).(locks := locks[..n]));
    var s2 := Release(s1, locks[n]);
    GiveUpLatest(s, t, locks);
    LegacyStep(s, s1, s2, t, locks, a);
    LegacyStep(s, s1, s2, t, locks, b);
    HeirsApart(s, s1, s2, t, locks, a);
  }

  lemma NotHeirFirst(s: K, s1: K, s2: K, s3: K, t: nat, m: nat, locks: seq<nat>, a: nat, b: nat)
    requires locks != [] && SameBut(s, s1, t) && s2 == Release(s1, m) && a != t && b != t
    requires Que(s, m) != [] ==> Que(s, m)[0] < |s.tsk| && a != Que(s, m)[0] && b != Que(s, m)[0]
    requires Tsk(s2, a) == Tsk(s, a) && Tsk(s2, b) == HeirFate(s1, m, b) && s2.obj == s.obj
    requires LegacyFate(s2, locks[..|locks| - 1], b) == LegacyFate(s, locks, b)
    requires OrderedAt(s2, s3, locks[..|locks| - 1], a, b)
    ensures OrderedAt(s, s3, locks, a, b)
  {
    ReleaseKeeps(s1, m, a, b);
    SameLists(s, s1, a, b);
    KeptOn(s, s1, s2, a, b);
    if !IsHeir(s, locks, b) { KeptOn(s, s2, s3, a, b); }
  }

  lemma HeirFirst(s: K, s1: K, s2: K, s3: K, t: nat, m: nat, locks: seq<nat>, a: nat, b: nat)
    requires locks != [] && WellFormed(s1) && ReadyInv(s1) && WaitInv(s1) && m < |s1.own| && s2 == Release(s1, m)
    requires a != t && b != t && SameBut(s, s1, t) && s3.obj == s2.obj == s.obj
    requires Que(s, m) != [] && Que(s, m)[0] == b && WaitsOn(s, b, m) && m in locks
    requires LegacyAt(s2, s3, locks[..|locks| - 1], b) && Tsk(s2, b) == HeirFate(s1, m, b)
    requires OrderedAt(s2, s3, locks[..|locks| - 1], a, b)
    ensures OrderedAt(s, s3, locks, a, b)
  {
    assert Tsk(s3, b) == Tsk(s2, b);
    assert IsHeir(s, locks, b) by { assert Woken(Tsk(s, b), Ok).stat != Tsk(s, b).stat; }
    if IsRunnable(s, a) && IsRunnable(s3, b) && Pri(s, a) <= Pri(s3, b) { HeirBehind(s1, m, a); }
  }

  /** Whoever inherits nothing is not at the head of the queue of the mutex given up first, and changes nowhere. */
  lemma HeirsApart(s: K, s1: K, s2: K, t: nat, locks: seq<nat>, a: nat)
    requires locks != [] && a != t && t < |s.tsk| && s1 == SetTsk(s, t, Tsk(s, t).(locks := locks[..|locks| - 1]))
    requires QueInv(s, locks[|locks| - 1]) && Tsk(s2, a) == HeirFate(s1, locks[|locks| - 1], a) && !IsHeir(s, locks, a)
    ensures Tsk(s2, a) == Tsk(s, a) && !(Que(s, locks[|locks| - 1]) != [] && Que(s, locks[|locks| - 1])[0] == a)
  {
    var m := locks[|locks| - 1];
    if Que(s, m) != [] {
      assert QueAt(s, m, Que(s, m)[0]);
      assert Tsk(s, a).stat.Waiting? ==> Woken(Tsk(s, a), Ok) != Tsk(s, a);
    }
  }

  lemma EndOrder(s: K, t: nat, a: nat, b: nat)
    requires Core(s, None, None) && t < |s.tsk| && a != t && b != t && !IsHeir(s, Tsk(s, t).locks, a)
    ensures OrderedAt(s, ReleaseAll(Place(s, t, Ended(Tsk(s, t)), false), t, Tsk(s, t).locks), Tsk(s, t).locks, a, b)
  {
    var x, locks := Ended(Tsk(s, t)), Tsk(s, t).locks;
    FitsSelf(s, t, None, None);
    CoreEnding(s, t);
    PlaceCore(s, t, x, false, Some(t), None);
    var s1 := Place(s, t, x, false);
    forall o | o in locks ensures Que(s1, o) == Que(s, o) {
      OwnQueue(s, t, o);
      OtherQueueStays(s, t, x, o);
    }
    EndedLegacy(s, s1, t, a);
    EndedLegacy(s, s1, t, b);
    ReleaseAllOrder(s1, t, locks, a, b);
    PlaceKeeps(s, t, x, false, a, b);
    if !IsHeir(s, locks, b) { KeptOn(s, s1, ReleaseAll(s1, t, locks), a, b); }
  }

  /** Others keep their order through the end of a task, and stay ahead of the heirs of no better priority. */
  lemma TerminateOrder(s: K, t: nat, a: nat, b: nat)
    requires Core(s, None, None) && t < |s.tsk| && a != t && b != t && !IsHeir(s, Tsk(s, t).locks, a)
    ensures OrderedAt(s, Terminate(s, t), Tsk(s, t).locks, a, b)
  {
    var s2 := ReleaseAll(Place(s, t, Ended(Tsk(s, t)), false), t, Tsk(s, t).locks);
    EndOrder(s, t, a, b);
    if Tsk(s2, t).actque {
      ExpiredFates(s, t);
      var s3 := SetTsk(s2, t, Tsk(s2, t).(actque := false));
      SameLists(s2, s3, a, b);
      PlaceKeeps(s3, t, Tsk(s3, t).(stat := Runnable), false, a, b);
      KeptOn(s2, s3, Terminate(s, t), a, b);
      PlaceMoved(s3, t, Tsk(s3, t).(stat := Runnable), false);
      if !IsHeir(s, Tsk(s, t).locks, b) { KeptOn(s, s2, Terminate(s, t), a, b); }
    }
  }

  /** A task started again after its end stands behind all of the same or a better priority. */
  lemma RestartedBehind(s: K, t: nat, y: nat)
    requires Core(s, None, None) && t < |s.tsk| && y != t && IsRunnable(s, y) && !IsHeir(s, Tsk(s, t).locks, y)
    requires Tsk(s, t).actque && Pri(s, y) <= Tsk(s, t).ipri
    ensures Before(Terminate(s, t).ready, y, t)
  {
    var s2 := ReleaseAll(Place(s, t, Ended(Tsk(s, t)), false), t, Tsk(s, t).locks);
    ExpiredFates(s, t);
    assert LegacyAt(s, s2, Tsk(s, t).locks, y);
    var s3 := SetTsk(s2, t, Tsk(s2, t).(actque := false));
    EndedQueues(s2, t, Tsk(s3, t));
    MovedWell(s2, s3, t, Tsk(s3, t)) by { assert PriOk(s2, t) && TaskOk(Tsk(s2, t)); }
    assert ReadyAt(s3, y);
    PlacedBehind(s3, t, Tsk(s3, t).(stat := Runnable), y);
  }

  /** Dispatching and the running task aside, `k1` is `k` after the end of task `t`. */
  lemma EndFair(k: K, s: K, t: nat, k1: K)
    requires Inv(k) && Core(s, None, None) && t < |k.tsk| && s == k.(enadsp := s.enadsp, ipmopen := s.ipmopen)
    requires k1 == Dispatch(Terminate(s, t)) && !Tsk(k, t).stat.Dormant?
    ensures FairBut(k, k1, |k.tsk|)
  {
    TerminateFates(s, t);
    var s1 := Terminate(s, t);
    forall a: nat, b: nat | a != |k.tsk| && b != |k.tsk| ensures FairAt(k, k1, a, b) {
      if Unmoved(k, k1, a) && Unmoved(k, k1, b) {
        UnmovedNoHeir(k, s, t, k1, a);
        UnmovedNoHeir(k, s, t, k1, b);
        TerminateOrder(s, t, a, b);
        SameLists(k, s, a, b);
        SameLists(s1, k1, a, b);
        KeptOn(k, s, s1, a, b);
        KeptOn(k, s1, k1, a, b);
      }
    }
    forall y: nat, u: nat | y != |k.tsk| ensures NewAt(k, k1, y, u) {
      if Unmoved(k, k1, y) && IsRunnable(k, y) && !IsRunnable(k, u) && IsRunnable(k1, u) && Pri(k, y) <= Pri(k1, u) {
        UnmovedNoHeir(k, s, t, k1, y);
        if u == t { RestartedBehind(s, t, y); }
        else {
          assert LegacyAt(s, s1, Tsk(s, t).locks, u);
          TerminateOrder(s, t, y, u);
        }
      }
    }
  }

  lemma UnmovedNoHeir(k: K, s: K, t: nat, k1: K, a: nat)
    requires s == k.(enadsp := s.enadsp, ipmopen := s.ipmopen) && Over(s, Terminate(s, t), t) && k1 == Dispatch(Terminate(s, t))
    requires Unmoved(k, k1, a) && t < |k.tsk| && !Tsk(k, t).stat.Dormant?
    ensures a != t && !IsHeir(s, Tsk(s, t).locks, a)
  {
    assert a != t ==> LegacyAt(s, Terminate(s, t), Tsk(s, t).locks, a);
  }

  lemma TerTskFair(k: K, t: nat)
    requires Inv(k)
    ensures FairBut(k, TerTsk(k, t).0, |k.tsk|)
  {
    if TerTsk(k, t).1 == Ok { EndFair(k, k, t, TerTsk(k, t).0); } else { StayFair(k, k, |k.tsk|); }
  }

  lemma RasTerFair(k: K, t: nat)
    requires Inv(k)
    ensures FairBut(k, RasTer(k, t).0, |k.tsk|)
  {
    var (k1, er) := RasTer(k, t);
    var x := Tsk(k, t);
    if er == Ok && x.enater {
      EndFair(k, k, t, k1);
    } else if er == Ok && !x.stat.Runnable? {
      MoveFair(k, k1, t, x.(stat := Runnable, raster := true, winfo := if x.stat.Waiting? then Result(ERaster) else x.winfo), |k.tsk|);
    } else {
      StayFair(k, k1, |k.tsk|);
    }
  }

  lemma ExtTskFair(k: K)
    requires Inv(k) && (k.ctx || k.run.Some?)
    ensures FairBut(k, ExtTsk(k).0, |k.tsk|)
  {
    if k.ctx {
      StayFair(k, k, |k.tsk|);
    } else {
      var s := k.(enadsp := true, ipmopen := true);
      SameCore(k, s);
      EndFair(k, s, Self(k), ExtTsk(k).0);
    }
  }

  lemma EnaTerFair(k: K)
    requires Inv(k) && (k.ctx || k.run.Some?)
    ensures FairBut(k, EnaTer(k).0, |k.tsk|)
  {
    if !k.ctx && Tsk(k, Self(k)).raster && Dsp(k) { EndFair(k, k, Self(k), EnaTer(k).0); }
    else { StayFair(k, EnaTer(k).0, |k.tsk|); }
  }

  /** Dispatching becomes possible. */
  lemma OpenedFair(k: K)
    requires Inv(k) && k.run.Some? && !k.ctx
    ensures FairBut(k, Opened(k.(enadsp := true, ipmopen := true)), |k.tsk|)
  {
    var s, t := k.(enadsp := true, ipmopen := true), Self(k);
    if Tsk(k, t).raster && Tsk(k, t).enater {
      SameCore(k, s);
      EndFair(k, s, t, Opened(s));
    } else {
      StayFair(k, Opened(s), |k.tsk|);
    }
  }

  lemma SwitchFair(k: K, c: Call)
    requires Inv(k) && (k.ctx || k.run.Some?) && (c.CDisDsp? || c.CEnaDsp? || c.CChgIpm?)
    ensures FairBut(k, DoCall(k, c).0, |k.tsk|)
  {
    if !k.ctx && ((c == CEnaDsp && k.ipmopen) || (c == CChgIpm(true) && k.enadsp)) {
      assert c == CEnaDsp ==> k.(enadsp := true) == k.(enadsp := true, ipmopen := true);
      assert c == CChgIpm(true) ==> k.(ipmopen := true) == k.(enadsp := true, ipmopen := true);
      OpenedFair(k);
    } else {
      StayFair(k, DoCall(k, c).0, |k.tsk|);
    }
  }

  lemma AcquireFair(k: K, m: nat)
    requires Inv(k) && k.run.Some? && Own(k, m) == None && IsMtx(k.obj, m)
    ensures FairBut(k, Acquire(k, Self(k), m), |k.tsk|)
  {
    var t := Self(k);
    var s, locks := SetOwn(k, m, Some(t)), Tsk(k, t).locks + [m];
    OwnerSet(k, m, Some(t));
    assert |locks| != |Tsk(k, t).locks|;
    StayFair(k, s, |k.tsk|);
    RelockFair(k, s, t, locks, Acquire(k, t, m));
  }

  /** The priority that a rotation is about. */
  function RotatedPri(k: K, tskpri: nat): nat { if tskpri == 0 then Tsk(k, Self(k)).bpri else tskpri - 1 }

  /** The task that a rotation moves. */
  function RotatedBy(k: K, p: nat): nat {
    var i := Slot(Pris(k), k.ready, p, true);
    if i < |k.ready| && At(Pris(k), k.ready[i]) == p then k.ready[i] else |k.tsk|
  }

  // ---------- every step ----------

  /** The task that a step sends to another place on purpose; no task at all if there is none. */
  function Sent(k: K, e: Step): nat {
    match e
    case Do(CChgPri(t, _)) => t
    case Do(CRotRdq(p)) => RotatedBy(k, RotatedPri(k, p))
    case _ => |k.tsk|
  }

  lemma RotateFair(k: K, p: nat, t: nat, k1: K)
    requires Inv(k) && t == RotatedBy(k, p) && k1 == Resched(Rotate(k, p))
    ensures FairBut(k, k1, t)
  {
    if t < |k.tsk| && Rotate(k, p) != k {
      MoveFair(k, k1, t, Tsk(k, t), t);
    } else {
      RotateMovesOnly(k, p);
      if t != |k.tsk| { assert t in k.ready && ReadyAt(k, t); }
      StayFair(k, k1, t);
    }
  }

  lemma RotRdqFair(k: K, p: nat)
    requires Inv(k) && (k.ctx || k.run.Some?)
    ensures FairBut(k, RotRdq(k, p).0, RotatedBy(k, RotatedPri(k, p)))
  {
    var t := RotatedBy(k, RotatedPri(k, p));
    if RotRdq(k, p).1 == Ok { RotateFair(k, RotatedPri(k, p), t, Resched(Rotate(k, RotatedPri(k, p)))); } else { StayFair(k, k, t); }
  }

  lemma SlpTskFair(k: K, tmo: nat)
    requires Inv(k) && (k.ctx || k.run.Some?)
    ensures FairBut(k, SlpTsk(k, tmo).0, |k.tsk|)
  {
    if SlpTsk(k, tmo).1 == Blocked { BlockFair(k, Sleep, tmo != TMO_FEVR); } else { StayFair(k, SlpTsk(k, tmo).0, |k.tsk|); }
  }

  lemma DlyTskFair(k: K, d: nat)
    requires Inv(k) && (k.ctx || k.run.Some?)
    ensures FairBut(k, DlyTsk(k, d).0, |k.tsk|)
  {
    if DlyTsk(k, d).1 == Blocked { BlockFair(k, Delay, true); } else { StayFair(k, k, |k.tsk|); }
  }

  lemma WupTskFair(k: K, t: nat)
    requires Inv(k)
    ensures FairBut(k, WupTsk(k, t).0, |k.tsk|)
  {
    if IsWaiting(k, t) && Tsk(k, t).stat.why == Sleep { UnwaitFair(k, t, Ok); } else { StayFair(k, WupTsk(k, t).0, |k.tsk|); }
  }

  lemma RelWaiFair(k: K, t: nat)
    requires Inv(k)
    ensures FairBut(k, RelWai(k, t).0, |k.tsk|)
  {
    if IsWaiting(k, t) { UnwaitFair(k, t, ERlwai); } else { StayFair(k, k, |k.tsk|); }
  }

  lemma LocMtxFair(k: K, m: nat, tmo: nat)
    requires Inv(k) && (k.ctx || k.run.Some?)
    ensures FairBut(k, LocMtx(k, m, tmo).0, |k.tsk|)
  {
    var er := LocMtx(k, m, tmo).1;
    if er == Ok { AcquireFair(k, m); }
    else if er == Blocked { BlockFair(k, On(m), tmo != TMO_FEVR); }
    else { StayFair(k, k, |k.tsk|); }
  }

  lemma PlocMtxFair(k: K, m: nat)
    requires Inv(k) && (k.ctx || k.run.Some?)
    ensures FairBut(k, PlocMtx(k, m).0, |k.tsk|)
  {
    if PlocMtx(k, m).1 == Ok { AcquireFair(k, m); } else { StayFair(k, k, |k.tsk|); }
  }

  lemma WaiSemFair(k: K, o: nat, tmo: nat)
    requires Inv(k) && (k.ctx || k.run.Some?)
    ensures FairBut(k, WaiSem(k, o, tmo).0, |k.tsk|)
  {
    if WaiSem(k, o, tmo).1 == Blocked { BlockFair(k, On(o), tmo != TMO_FEVR); } else { StayFair(k, WaiSem(k, o, tmo).0, |k.tsk|); }
  }

  lemma PolSemFair(k: K, o: nat)
    requires Inv(k)
    ensures FairBut(k, PolSem(k, o).0, |k.tsk|)
  {
    StayFair(k, PolSem(k, o).0, |k.tsk|);
  }

  lemma SigSemFair(k: K, o: nat)
    requires Inv(k)
    ensures FairBut(k, SigSem(k, o).0, |k.tsk|)
  {
    if IsSem(k.obj, o) && Que(k, o) != [] {
      HeadWaits(k, o);
      UnwaitFair(k, Que(k, o)[0], Ok);
    } else {
      StayFair(k, SigSem(k, o).0, |k.tsk|);
    }
  }

  lemma TaskCallFair(k: K, c: Call)
    requires Inv(k) && (k.ctx || k.run.Some?)
    requires c.CActTsk? || c.CChgPri? || c.CSlpTsk? || c.CDlyTsk? || c.CWupTsk? || c.CRelWai? || c.CSusTsk? || c.CRsmTsk?
    ensures FairBut(k, DoCall(k, c).0, Sent(k, Do(c)))
  {
    match c
    case CActTsk(t) =>
      assert DoCall(k, c) == ActTsk(k, t);
      ActTskFair(k, t);
    case CChgPri(t, p) =>
      assert DoCall(k, c) == ChgPri(k, t, p);
      ChgPriFair(k, t, p);
    case CSlpTsk(tmo) =>
      assert DoCall(k, c) == SlpTsk(k, tmo);
      SlpTskFair(k, tmo);
    case CDlyTsk(d) =>
      assert DoCall(k, c) == DlyTsk(k, d);
      DlyTskFair(k, d);
    case CWupTsk(t) =>
      assert DoCall(k, c) == WupTsk(k, t);
      WupTskFair(k, t);
    case CRelWai(t) =>
      assert DoCall(k, c) == RelWai(k, t);
      RelWaiFair(k, t);
    case CSusTsk(t) =>
      assert DoCall(k, c) == SusTsk(k, t);
      SusTskFair(k, t);
    case CRsmTsk(t) =>
      assert DoCall(k, c) == RsmTsk(k, t);
      RsmTskFair(k, t);
  }

  lemma EndCallFair(k: K, c: Call)
    requires Inv(k) && (k.ctx || k.run.Some?)
    requires c.CExtTsk? || c.CRasTer? || c.CDisTer? || c.CEnaTer? || c.CTerTsk? || c.CRotRdq? || c.CDisDsp? || c.CEnaDsp? || c.CChgIpm?
    ensures FairBut(k, DoCall(k, c).0, Sent(k, Do(c)))
  {
    match c
    case CExtTsk =>
      assert DoCall(k, c) == ExtTsk(k);
      ExtTskFair(k);
    case CRasTer(t) =>
      assert DoCall(k, c) == RasTer(k, t);
      RasTerFair(k, t);
    case CDisTer => StayFair(k, DisTer(k).0, |k.tsk|);
    case CEnaTer =>
      assert DoCall(k, c) == EnaTer(k);
      EnaTerFair(k);
    case CTerTsk(t) =>
      assert DoCall(k, c) == TerTsk(k, t);
      TerTskFair(k, t);
    case CRotRdq(p) =>
      assert DoCall(k, c) == RotRdq(k, p);
      RotRdqFair(k, p);
    case CDisDsp => SwitchFair(k, c);
    case CEnaDsp => SwitchFair(k, c);
    case CChgIpm(_) => SwitchFair(k, c);
  }

  lemma MutexCallFair(k: K, c: Call)
    requires Inv(k) && (k.ctx || k.run.Some?) && (c.CLocMtx? || c.CPlocMtx? || c.CUnlMtx? || c.CIniMtx?)
    ensures FairBut(k, DoCall(k, c).0, |k.tsk|)
  {
    match c
    case CLocMtx(m, tmo) =>
      assert DoCall(k, c) == LocMtx(k, m, tmo);
      LocMtxFair(k, m, tmo);
    case CPlocMtx(m) =>
      assert DoCall(k, c) == PlocMtx(k, m);
      PlocMtxFair(k, m);
    case CUnlMtx(m) =>
      assert DoCall(k, c) == UnlMtx(k, m);
      UnlMtxFair(k, m);
    case CIniMtx(m) =>
      assert DoCall(k, c) == IniMtx(k, m);
      IniMtxFair(k, m);
  }

  lemma SemaphoreCallFair(k: K, c: Call)
    requires Inv(k) && (k.ctx || k.run.Some?) && (c.CWaiSem? || c.CPolSem? || c.CSigSem? || c.CIniSem?)
    ensures FairBut(k, DoCall(k, c).0, |k.tsk|)
  {
    match c
    case CWaiSem(o, tmo) =>
      assert DoCall(k, c) == WaiSem(k, o, tmo);
      WaiSemFair(k, o, tmo);
    case CPolSem(o) =>
      assert DoCall(k, c) == PolSem(k, o);
      PolSemFair(k, o);
    case CSigSem(o) =>
      assert DoCall(k, c) == SigSem(k, o);
      SigSemFair(k, o);
    case CIniSem(o) =>
      assert DoCall(k, c) == IniSem(k, o);
      IniSemFair(k, o);
  }

  lemma NextFair(k: K, e: Step)
    requires Inv(k)
    ensures FairBut(k, Next(k, e), Sent(k, e))
  {
    match e
    case Do(c) =>
      if !k.ctx && k.run == None {
        StayFair(k, k, Sent(k, e));
      } else if c.CActTsk? || c.CChgPri? || c.CSlpTsk? || c.CDlyTsk? || c.CWupTsk? || c.CRelWai? || c.CSusTsk? || c.CRsmTsk? {
        TaskCallFair(k, c);
      } else if c.CLocMtx? || c.CPlocMtx? || c.CUnlMtx? || c.CIniMtx? {
        MutexCallFair(k, c);
      } else if c.CWaiSem? || c.CPolSem? || c.CSigSem? || c.CIniSem? {
        SemaphoreCallFair(k, c);
      } else {
        EndCallFair(k, c);
      }
    case TimeEvent(t) =>
      if k.ctx && Timed(k, t) {
        MoveFair(k, Next(k, e), t, Released(Tsk(k, t), if Tsk(k, t).stat.why == Delay then Ok else ETmout), |k.tsk|);
      } else { StayFair(k, k, |k.tsk|); }
    case IntEnter => StayFair(k, Next(k, e), |k.tsk|);
    case IntExit => StayFair(k, Next(k, e), |k.tsk|);
  }

  /** In every run, tasks keep their order among themselves, in the precedence list and in every wait queue, unless
      a step moves one of them itself; and whoever becomes runnable queues behind those of the same or a better
      priority, however many tasks the step has released or ended and whatever it has handed over. */
  lemma {:induction false} FirstComeFirstServed(s: K, es: seq<Step>, e: Step, a: nat, b: nat)
    requires Initial(s)
    requires var k := Run(s, es); Unmoved(k, Next(k, e), a) && a != Sent(k, e)
    ensures var k, k1 := Run(s, es), Next(Run(s, es), e);
      && (Unmoved(k, k1, b) && b != Sent(k, e) && Before(k.ready, a, b) ==> Before(k1.ready, a, b))
      && (Unmoved(k, k1, b) && b != Sent(k, e) ==> forall o: nat :: Before(Que(k, o), a, b) ==> Before(Que(k1, o), a, b))
      && (IsRunnable(k, a) && !IsRunnable(k, b) && IsRunnable(k1, b) && Pri(k, a) <= Pri(k1, b) ==> Before(k1.ready, a, b))
  {
    var k, k1 := Run(s, es), Next(Run(s, es), e);
    AlwaysInv(s, es);
    NextFair(k, e);
    assert NewAt(k, k1, a, b);
    if Unmoved(k, k1, b) && b != Sent(k, e) {
      assert FairAt(k, k1, a, b);
      forall o: nat | Before(Que(k, o), a, b) ensures Before(Que(k1, o), a, b) { assert QueueKept(k, k1, a, b, o); }
    }
  }

  // ---------- into a wait queue ----------

  /** Placed in a wait queue, a task stands behind all of the same or a better priority, or at the very end. */
  lemma QueuedBehind(s: K, t: nat, x: Task, o: nat, y: nat)
    requires WellFormed(s) && WaitInv(s) && t < |s.tsk| && x.stat.Waiting? && x.stat.why == On(o) && o < |s.wq|
    requires y in Que(s, o) && y != t && (ByPriority(s.obj, o) ==> Pri(s, y) <= EffPri(s.obj, x.bpri, x.locks))
    ensures Before(Que(Place(s, t, x, false), o), y, t)
  {
    var s1 := Leave(s, t);
    var s2, q := SetTsk(s1, t, x), Que(s1, o);
    LeaveQue(s, t, o);
    LeaveShape(s, t);
    assert QueInv(s, o);
    RemoveFacts(Que(s, o), t);
    JoinQueIs(s2, t, false, o);
    if ByPriority(s.obj, o) {
      SortedElsewhere(s1, s2, t, q);
      InsertedBehind(Pris(s2), q, t, y);
    } else {
      BeforeLast(q, y, t);
    }
  }

  lemma InsertedBehind(pri: seq<nat>, q: seq<nat>, t: nat, y: nat)
    requires NoDup(q) && Sorted(pri, q) && t !in q && y in q && At(pri, y) <= At(pri, t)
    ensures Before(Insert(pri, q, t, false), y, t)
  {
    InsertFacts(pri, q, t, false);
    BeforeTotal(Insert(pri, q, t, false), y, t);
    if Before(Insert(pri, q, t, false), t, y) { BeforeInsert(pri, q, t, false, t, y); }
  }

  lemma SortedElsewhere(s: K, s1: K, t: nat, q: seq<nat>)
    requires Sorted(Pris(s), q) && t !in q && |s1.tsk| == |s.tsk| && s1.obj == s.obj
    requires forall y: nat :: y != t ==> Tsk(s1, y) == Tsk(s, y)
    ensures Sorted(Pris(s1), q)
  {
    assert forall y: nat :: y != t ==> At(Pris(s1), y) == At(Pris(s), y);
    SortedFrame(Pris(s), Pris(s1), q);
  }

  lemma BeforeLast(q: seq<nat>, y: nat, t: nat)
    requires y in q
    ensures Before(q + [t], y, t)
  {
    var i :| 0 <= i < |q| && q[i] == y;
    assert (q + [t])[i] == y && (q + [t])[|q|] == t;
  }

  /** In every run, whoever starts to wait for an object comes last in a queue in order of arrival, and behind those
      of the same or a better priority in a queue by priority. */
  lemma {:induction false} WaitersQueueUp(s: K, es: seq<Step>, c: Call, o: nat, y: nat)
    requires Initial(s)
    requires var k := Run(s, es); Answers(k, c, Blocked) && k.run.Some? && WaitsOn(DoCall(k, c).0, k.run.value, o) && y in Que(k, o)
    requires var k := Run(s, es); ByPriority(k.obj, o) ==> Pri(k, y) <= Pri(k, k.run.value)
    ensures Before(Que(DoCall(Run(s, es), c).0, o), y, Run(s, es).run.value)
  {
    var k := Run(s, es);
    AlwaysInv(s, es);
    CallFollows(k, c);
    assert TaskAt(k, c, Blocked, DoCall(k, c).0, k.run.value) && ReadyAt(k, k.run.value);
    BlockedOn(k, c, DoCall(k, c).0, o);
    BlockedBehind(k, o, y, if c.CLocMtx? then c.tmo != TMO_FEVR else c.CWaiSem? && c.tmo != TMO_FEVR);
  }

  /** Only two calls make their callers wait for objects. */
  lemma BlockedOn(k: K, c: Call, k1: K, o: nat)
    requires k.run.Some? && IsRunnable(k, k.run.value) && (k1, Blocked) == DoCall(k, c)
    requires Tsk(k1, k.run.value) == FateBy(k, c, Blocked, k.run.value) && WaitsOn(k1, k.run.value, o)
    ensures (c.CLocMtx? && c.m == o && k1 == Dispatch(Block(k, Self(k), On(o), c.tmo != TMO_FEVR)))
      || (c.CWaiSem? && c.o == o && k1 == Dispatch(Block(k, Self(k), On(o), c.tmo != TMO_FEVR)))
  {}

  lemma BlockedBehind(k: K, o: nat, y: nat, timed: bool)
    requires Inv(k) && k.run.Some? && y in Que(k, o) && (ByPriority(k.obj, o) ==> Pri(k, y) <= Pri(k, k.run.value))
    ensures Before(Que(Block(k, Self(k), On(o), timed), o), y, k.run.value)
  {
    assert QueInv(k, o) && QueAt(k, o, y) && QueAt(k, o, k.run.value) && CondAt(k, o);
    QueuedBehind(k, k.run.value, Asleep(Tsk(k, k.run.value), On(o), timed), o, y);
  }

  // ---------- on purpose ----------

  /** Of the runnable tasks of priority `p`, task `t` is the first. */
  ghost predicate FirstOf(k: K, p: nat, t: nat) {
    IsRunnable(k, t) && Pri(k, t) == p && forall z: nat :: IsRunnable(k, z) && Pri(k, z) == p && z != t ==> Before(k.ready, t, z)
  }

  /** In every run, a rotation sends the first task of the priority behind all others of it. That the others keep their
      order is part of `FirstComeFirstServed`. */
  lemma {:induction false} RotationSendsLast(s: K, es: seq<Step>, tskpri: nat, t: nat, y: nat)
    requires Initial(s) && RotRdq(Run(s, es), tskpri).1 == Ok
    requires var k := Run(s, es);
      FirstOf(k, RotatedPri(k, tskpri), t) && IsRunnable(k, y) && Pri(k, y) == RotatedPri(k, tskpri) && y != t
    ensures Sent(Run(s, es), Do(CRotRdq(tskpri))) == t && Before(RotRdq(Run(s, es), tskpri).0.ready, y, t)
  {
    AlwaysInv(s, es);
    Rotation(Run(s, es), tskpri, t, y);
  }

  lemma Rotation(k: K, tskpri: nat, t: nat, y: nat)
    requires Inv(k) && RotRdq(k, tskpri).1 == Ok
    requires FirstOf(k, RotatedPri(k, tskpri), t) && IsRunnable(k, y) && Pri(k, y) == RotatedPri(k, tskpri) && y != t
    ensures Sent(k, Do(CRotRdq(tskpri))) == t && Before(RotRdq(k, tskpri).0.ready, y, t)
  {
    RotatedLast(k, RotatedPri(k, tskpri), t, y);
    assert RotRdq(k, tskpri).0 == Resched(Rotate(k, RotatedPri(k, tskpri)));
  }

  lemma RotatedLast(k: K, p: nat, t: nat, y: nat)
    requires Inv(k) && FirstOf(k, p, t) && IsRunnable(k, y) && Pri(k, y) == p && y != t
    ensures RotatedBy(k, p) == t && Before(Rotate(k, p).ready, y, t)
  {
    FirstOfPriority(k, p, t);
    assert ReadyAt(k, y);
    PlacedBehind(k, t, Tsk(k, t), y);
  }

  lemma FirstOfPriority(k: K, p: nat, t: nat)
    requires Inv(k) && FirstOf(k, p, t)
    ensures RotatedBy(k, p) == t && Rotate(k, p) == Place(k, t, Tsk(k, t), false)
  {
    var i := Slot(Pris(k), k.ready, p, true);
    assert ReadyAt(k, t);
    var j :| 0 <= j < |k.ready| && k.ready[j] == t;
    assert i <= j;
    var z := k.ready[i];
    assert z in k.ready && ReadyAt(k, z) && (i < j ==> InOrder(Pris(k), k.ready, i, j));
    NotAhead(k.ready, i, j);
  }

  lemma NotAhead(q: seq<nat>, i: nat, j: nat)
    requires NoDup(q) && i <= j < |q|
    ensures i < j ==> q[i] != q[j] && !Before(q, q[j], q[i])
  {
    if i < j {
      assert Apart(q, i, j);
      forall k, l | 0 <= k < l < |q| ensures !(q[k] == q[j] && q[l] == q[i]) {
        assert k != j ==> Apart(q, if k < j then k else j, if k < j then j else k);
        assert l != i ==> Apart(q, if l < i then l else i, if l < i then i else l);
      }
    }
  }

  /** In every run, a task whose base priority is changed goes behind those of its new priority, in the precedence list
      and in a queue by priority; in a queue in order of arrival it keeps its place, and while it holds a ceiling
      mutex it does not move at all. */
  lemma {:induction false} ReprioritizedGoesBehind(s: K, es: seq<Step>, t: nat, tskpri: nat, o: nat, y: nat)
    requires Initial(s) && DoCall(Run(s, es), CChgPri(t, tskpri)).1 == Ok && y != t
    ensures var k, k1 := Run(s, es), DoCall(Run(s, es), CChgPri(t, tskpri)).0;
      && (HoldsCeil(k, t) || !(IsRunnable(k, t) || (IsWaiting(k, t) && Tsk(k, t).stat.why.On? && ByPriority(k.obj, Tsk(k, t).stat.why.obj)))
          ==> k1.ready == k.ready && Que(k1, o) == Que(k, o))
      && (!HoldsCeil(k, t) && IsRunnable(k, t) && IsRunnable(k, y) && Pri(k, y) <= Pri(k1, t) ==> Before(k1.ready, y, t))
      && (!HoldsCeil(k, t) && WaitsOn(k, t, o) && ByPriority(k.obj, o) && WaitsOn(k, y, o) && Pri(k, y) <= Pri(k1, t)
          ==> Before(Que(k1, o), y, t))
  {
    AlwaysInv(s, es);
    Reprioritized(Run(s, es), t, tskpri, o, y);
  }

  lemma Reprioritized(k: K, t: nat, tskpri: nat, o: nat, y: nat)
    requires Inv(k) && ChgPri(k, t, tskpri).1 == Ok && y != t
    ensures var k1 := ChgPri(k, t, tskpri).0;
      && (HoldsCeil(k, t) || !(IsRunnable(k, t) || (IsWaiting(k, t) && Tsk(k, t).stat.why.On? && ByPriority(k.obj, Tsk(k, t).stat.why.obj)))
          ==> k1.ready == k.ready && Que(k1, o) == Que(k, o))
      && (!HoldsCeil(k, t) && IsRunnable(k, t) && IsRunnable(k, y) && Pri(k, y) <= Pri(k1, t) ==> Before(k1.ready, y, t))
      && (!HoldsCeil(k, t) && WaitsOn(k, t, o) && ByPriority(k.obj, o) && WaitsOn(k, y, o) && Pri(k, y) <= Pri(k1, t)
          ==> Before(Que(k1, o), y, t))
  {
    var x := Tsk(k, t).(bpri := if tskpri == 0 then Tsk(k, t).ipri else tskpri - 1);
    RepriAlone(k, t, tskpri);
    assert ReadyAt(k, t) && ReadyAt(k, y) && QueInv(k, o) && QueAt(k, o, y) && QueAt(k, o, t) && CondAt(k, o);
    if !HoldsCeil(k, t) {
      if IsRunnable(k, t) && IsRunnable(k, y) && Pri(k, y) <= EffPri(k.obj, x.bpri, x.locks) { PlacedBehind(k, t, x, y); }
      if WaitsOn(k, t, o) && ByPriority(k.obj, o) && WaitsOn(k, y, o) && Pri(k, y) <= EffPri(k.obj, x.bpri, x.locks) {
        QueuedBehind(k, t, x, o, y);
      }
    }
  }
}
