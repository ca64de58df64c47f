/** The immediate priority ceiling protocol: a task that may lock a ceiling mutex never has to wait for it.

    The protocol is a discipline of the application. Dispatching stays allowed; a task that holds a
    ceiling mutex is not put to sleep, is not suspended, is not given another base priority and is not
    rotated behind its equals. Under this discipline, whenever a task could ask for a ceiling mutex, the
    mutex is free or already its own.
  */
module CeilingProtocol {
  import opened PriorityList
  import opened KernelSpec
  import opened KernelInv
  import opened KernelOps
  import opened KernelRuns

  // ---------- the discipline ----------

  /** The task that `rot_rdq` would move. */
  predicate Rotated(s: K, p: nat, t: nat) {
    var i := Slot(Pris(s), s.ready, p, true);
    i < |s.ready| && At(Pris(s), s.ready[i]) == p && s.ready[i] == t
  }

  predicate Disciplined(s: K, e: Step) {
    match e
    case Do(CDisDsp) => false
    case Do(CChgIpm(open)) => open
    case Do(CChgPri(t, _)) => !HoldsCeil(s, t)
    case Do(CSusTsk(t)) => !HoldsCeil(s, t)
    case Do(CRotRdq(p)) =>
      var q := if p == 0 then Tsk(s, Self(s)).bpri else p - 1;
      forall t | t in s.ready && Rotated(s, q, t) :: !HoldsCeil(s, t)
    case Do(c) => DoCall(s, c).1 == Blocked ==> !HoldsCeil(s, Self(s))
    case _ => true
  }

  predicate DisciplinedRun(s: K, es: seq<Step>)
    decreases |es|
  {
    es == [] || (DisciplinedRun(s, es[..|es| - 1]) && Disciplined(Run(s, es[..|es| - 1]), es[|es| - 1]))
  }

  // ---------- the invariant of the protocol ----------

  /** Task `a` has a base priority above the ceilings of all that `b` has locked. */
  ghost predicate Above(s: K, a: nat, b: nat) {
    forall m: nat :: AboveAt(s, a, b, m)
  }

  ghost predicate AboveAt(s: K, a: nat, b: nat, m: nat) {
    m in Tsk(s, b).locks && IsCeil(s.obj, m) ==> Tsk(s, a).bpri < Ceiling(s.obj, m)
  }

  ghost predicate AheadAt(s: K, a: nat, b: nat) { Before(s.ready, a, b) ==> Above(s, a, b) }

  ghost predicate HolderAt(s: K, t: nat, ending: Option<nat>) {
    HoldsCeil(s, t) && Some(t) != ending ==> IsRunnable(s, t)
  }

  ghost predicate FreeAt(s: K, o: nat) { IsCeil(s.obj, o) ==> Que(s, o) == [] }

  /** Whoever is ahead of the holder of a ceiling mutex has a base priority above that ceiling; holders
      are runnable; nobody waits for a ceiling mutex. */
  ghost predicate Proto(s: K, ending: Option<nat>) {
    && Dsp(s)
    && (forall a: nat, b: nat :: AheadAt(s, a, b))
    && (forall t: nat :: HolderAt(s, t, ending))
    && (forall o: nat :: FreeAt(s, o))
  }

  ghost predicate NoCeil(obj: seq<Obj>, x: Task) {
    forall o: nat :: o in x.locks ==> !IsCeil(obj, o)
  }

  /** Without a ceiling mutex the current priority is the base priority. */
  lemma {:induction false} PlainPri(obj: seq<Obj>, x: Task, locks: seq<nat>)
    requires NoCeil(obj, x) && x.bpri < TNUM_TPRI && forall o :: o in locks ==> o in x.locks
    ensures EffPri(obj, x.bpri, locks) == x.bpri
    decreases |locks|
  {
    if locks != [] {
      assert locks[|locks| - 1] in locks;
      PlainPri(obj, x, locks[..|locks| - 1]);
    }
  }

  // ---------- movements keep it ----------

  lemma PlaceProto(s: K, t: nat, x: Task, ending: Option<nat>)
    requires WellFormed(s) && ReadyInv(s) && WaitInv(s) && Proto(s, ending)
    requires t < |s.tsk| && x.bpri < TNUM_TPRI
    requires NoCeil(s.obj, x) || (ending == Some(t) && !x.stat.Runnable?)
    requires x.stat.Waiting? && x.stat.why.On? ==> x.stat.why.obj < |s.obj| && !IsCeil(s.obj, x.stat.why.obj)
    ensures Proto(Place(s, t, x, false), ending)
  {
    var s1 := Place(s, t, x, false);
    PlaceMoved(s, t, x, false);
    PlaceFacts(s, t, x, false);
    forall a: nat, b: nat ensures AheadAt(s1, a, b) {
      if Before(s1.ready, a, b) { PlaceAhead(s, t, x, a, b); }
    }
    forall y: nat ensures HolderAt(s1, y, ending) { assert HolderAt(s, y, ending); }
    forall o: nat ensures FreeAt(s1, o) { QueueStaysFree(s, s1, t, x, o); }
  }

  lemma QueueStaysFree(s: K, s1: K, t: nat, x: Task, o: nat)
    requires WaitInv(s) && WaitInv(s1) && Moved(s, s1, t, x) && FreeAt(s, o)
    requires x.stat.Waiting? && x.stat.why == On(o) ==> !IsCeil(s.obj, o)
    ensures FreeAt(s1, o)
  {
    assert QueInv(s, o) && QueInv(s1, o);
    if IsCeil(s.obj, o) {
      forall y: nat ensures y !in Que(s1, o) { assert QueAt(s1, o, y) && QueAt(s, o, y); }
      SomeIn(Que(s1, o));
    }
  }

  lemma PlaceAhead(s: K, t: nat, x: Task, a: nat, b: nat)
    requires WellFormed(s) && ReadyInv(s) && WaitInv(s) && t < |s.tsk| && x.bpri < TNUM_TPRI
    requires forall a: nat, b: nat :: AheadAt(s, a, b)
    requires NoCeil(s.obj, x) || !x.stat.Runnable?
    requires Before(Place(s, t, x, false).ready, a, b)
    ensures Above(Place(s, t, x, false), a, b)
  {
    var s1 := Place(s, t, x, false);
    PlaceMoved(s, t, x, false);
    PlaceOrder(s, t, x, a, b);
    if a == t {
      PlainPri(s.obj, x, x.locks);
      EffPriIsMin(s.obj, Tsk(s1, b).bpri, Tsk(s1, b).locks);
      forall m: nat ensures AboveAt(s1, a, b, m) {}
    } else if b == t {
      forall m: nat ensures AboveAt(s1, a, b, m) {}
    } else {
      assert AheadAt(s, a, b);
      forall m: nat ensures AboveAt(s1, a, b, m) { assert AboveAt(s, a, b, m); }
    }
  }

  /** The order after a move: the old one, but for `t`, which is runnable and behind its equals. */
  lemma PlaceOrder(s: K, t: nat, x: Task, a: nat, b: nat)
    requires WellFormed(s) && ReadyInv(s) && WaitInv(s) && t < |s.tsk|
    requires Before(Place(s, t, x, false).ready, a, b)
    ensures
      || (a != t && b != t && Before(s.ready, a, b))
      || (a == t && b != t && x.stat.Runnable? && EffPri(s.obj, x.bpri, x.locks) < Pri(s, b))
      || (b == t && a != t && x.stat.Runnable?)
  {
    PlaceReady(s, t, x, false);
    ReseatedOrder(s, Place(s, t, x, false), t, x, false, a, b);
  }

  /** In `s1` task `t` has another place in the precedence list, that of record `x`, or none. */
  ghost predicate Reseated(s: K, s1: K, t: nat, x: Task, front: bool) {
    var r := Remove(s.ready, t);
    && s1.ready == (if x.stat.Runnable? then Insert(Pris(s1), r, t, front) else r)
    && Sorted(Pris(s1), r) && At(Pris(s1), t) == EffPri(s.obj, x.bpri, x.locks)
    && (forall y: nat :: y != t ==> At(Pris(s1), y) == At(Pris(s), y))
  }

  lemma PlaceReady(s: K, t: nat, x: Task, front: bool)
    requires WellFormed(s) && ReadyInv(s) && WaitInv(s) && t < |s.tsk|
    ensures Reseated(s, Place(s, t, x, front), t, x, front)
  {
    var s2 := SetTsk(Leave(s, t), t, x);
    LeaveReady(s, t);
    LeaveShape(s, t);
    JoinShape(s2, t, front);
    assert forall y: nat :: y != t ==> At(Pris(s2), y) == At(Pris(s), y);
    SortedFrame(Pris(s), Pris(s2), Remove(s.ready, t));
  }

  /** The order after `t` has left a list and joined it again. */
  lemma OrderAfterMove(pri: seq<nat>, q: seq<nat>, t: nat, front: bool, a: nat, b: nat)
    requires NoDup(q) && Sorted(pri, Remove(q, t)) && Before(Insert(pri, Remove(q, t), t, front), a, b)
    ensures
      || (a != t && b != t && Before(q, a, b))
      || (a == t && b != t && b in q && if front then At(pri, t) <= At(pri, b) else At(pri, t) < At(pri, b))
      || (b == t && a != t && a in q && if front then At(pri, a) < At(pri, t) else At(pri, a) <= At(pri, t))
  {
    RemoveFacts(q, t);
    BeforeInsert(pri, Remove(q, t), t, front, a, b);
    if a != t && b != t { BeforeRemove(q, t, a, b); }
  }

  lemma ReseatedOrder(s: K, s1: K, t: nat, x: Task, front: bool, a: nat, b: nat)
    requires ReadyInv(s) && Reseated(s, s1, t, x, front) && Before(s1.ready, a, b)
    ensures var n := EffPri(s.obj, x.bpri, x.locks);
      || (a != t && b != t && Before(s.ready, a, b))
      || (a == t && b != t && x.stat.Runnable? && IsRunnable(s, b) && if front then n <= Pri(s, b) else n < Pri(s, b))
      || (b == t && a != t && x.stat.Runnable? && IsRunnable(s, a) && if front then Pri(s, a) < n else Pri(s, a) <= n)
  {
    var pri := Pris(s1);
    if x.stat.Runnable? {
      OrderAfterMove(pri, s.ready, t, front, a, b);
      if a == t {
        assert ReadyAt(s, b) && At(pri, b) == At(Pris(s), b);
      } else if b == t {
        assert ReadyAt(s, a) && At(pri, a) == At(Pris(s), a);
      }
    } else {
      BeforeRemove(s.ready, t, a, b);
    }
  }

  /** A record that changes neither the ready list nor what is above what. */
  lemma SetProto(s: K, t: nat, x: Task, ending: Option<nat>)
    requires Proto(s, ending) && t < |s.tsk|
    requires forall o :: o in x.locks ==> o in Tsk(s, t).locks
    requires x.bpri == Tsk(s, t).bpri || !IsRunnable(s, t)
    requires IsRunnable(s, t) ==> x.stat.Runnable?
    requires ReadyInv(s)
    ensures Proto(SetTsk(s, t, x), ending)
  {
    var s1 := SetTsk(s, t, x);
    forall a: nat, b: nat ensures AheadAt(s1, a, b) {
      if Before(s.ready, a, b) {
        assert AheadAt(s, a, b) && ReadyAt(s, t);
        BeforeSorted(Pris(s), s.ready, a, b);
        forall m: nat ensures AboveAt(s1, a, b, m) { assert AboveAt(s, a, b, m); }
      }
    }
    forall y: nat ensures HolderAt(s1, y, ending) { assert HolderAt(s, y, ending); }
    forall o: nat ensures FreeAt(s1, o) { assert FreeAt(s, o); }
  }

  /** The protocol does not look at owners, counts and the running task. */
  lemma SameProto(s: K, s1: K, ending: Option<nat>)
    requires Proto(s, ending) && s1 == s.(run := s1.run, ctx := s1.ctx, own := s1.own, cnt := s1.cnt)
    ensures Proto(s1, ending)
  {
    forall a: nat, b: nat ensures AheadAt(s1, a, b) {
      assert AheadAt(s, a, b);
      if Before(s.ready, a, b) { forall m: nat ensures AboveAt(s1, a, b, m) { assert AboveAt(s, a, b, m); } }
    }
    forall y: nat ensures HolderAt(s1, y, ending) { assert HolderAt(s, y, ending); }
    forall o: nat ensures FreeAt(s1, o) { assert FreeAt(s, o); }
  }

  lemma EffPriSubset(obj: seq<Obj>, b: nat, locks: seq<nat>, locks': seq<nat>)
    requires forall o :: o in locks' ==> o in locks
    ensures EffPri(obj, b, locks) <= EffPri(obj, b, locks')
  {
    EffPriIsMin(obj, b, locks);
    EffPriIsMin(obj, b, locks');
  }

  // ---------- locks ----------

  /** A holder that lets go of a ceiling mutex falls back in the precedence list, but not behind anyone
      with too low a base priority. */
  lemma DropProto(s: K, t: nat, m: nat)
    requires Core(s, None, None) && Proto(s, None) && m in Tsk(s, t).locks
    ensures Proto(Relock(s, t, Remove(Tsk(s, t).locks, m)), None)
  {
    var x := Tsk(s, t).(locks := Remove(Tsk(s, t).locks, m));
    RemoveFacts(Tsk(s, t).locks, m) by { assert LocksAt(s, t, None); }
    assert PriOk(s, t);
    if EffPri(s.obj, x.bpri, x.locks) == Pri(s, t) || !IsRunnable(s, t) {
      FallsNowhere(s, t, x);
    } else {
      EffPriSubset(s.obj, x.bpri, Tsk(s, t).locks, x.locks);
      FallProto(s, t, x);
    }
  }

  lemma FallProto(s: K, t: nat, x: Task)
    requires Core(s, None, None) && Proto(s, None) && IsRunnable(s, t)
    requires x == Tsk(s, t).(locks := x.locks) && forall o :: o in x.locks ==> o in Tsk(s, t).locks
    requires Pri(s, t) < EffPri(s.obj, x.bpri, x.locks)
    ensures Proto(Place(s, t, x, true), None)
  {
    var s1 := Place(s, t, x, true);
    PlaceMoved(s, t, x, true);
    PlaceFacts(s, t, x, true);
    forall a: nat, b: nat ensures AheadAt(s1, a, b) {
      if Before(s1.ready, a, b) { FallAhead(s, t, x, a, b); }
    }
    forall y: nat ensures HolderAt(s1, y, None) { assert HolderAt(s, y, None); }
    forall o: nat ensures FreeAt(s1, o) { QueueStaysFree(s, s1, t, x, o) by { assert FreeAt(s, o); } }
  }

  lemma FallsNowhere(s: K, t: nat, x: Task)
    requires Core(s, None, None) && Proto(s, None) && t < |s.tsk|
    requires x == Tsk(s, t).(locks := x.locks) && forall o :: o in x.locks ==> o in Tsk(s, t).locks
    requires EffPri(s.obj, x.bpri, x.locks) == Pri(s, t) || !IsRunnable(s, t)
    ensures Proto(Relock(s, t, x.locks), None)
  {
    if Relock(s, t, x.locks) == SetTsk(s, t, x) {
      SetProto(s, t, x, None);
    } else {
      assert HolderAt(s, t, None) && PriOk(s, t);
      FitsSelf(s, t, None, None);
      if x.stat.Waiting? && x.stat.why.On? {
        assert FreeAt(s, x.stat.why.obj) && QueInv(s, x.stat.why.obj) && QueAt(s, x.stat.why.obj, t);
      }
      PlaceProto(s, t, x, None);
      assert Relock(s, t, x.locks) == Place(s, t, x, false);
    }
  }

  /** `a` precedes `b` after runnable task `t` has fallen back to the front of a lower priority. */
  lemma FallAhead(s: K, t: nat, x: Task, a: nat, b: nat)
    requires Core(s, None, None) && Proto(s, None) && IsRunnable(s, t)
    requires x == Tsk(s, t).(locks := x.locks) && forall o :: o in x.locks ==> o in Tsk(s, t).locks
    requires Pri(s, t) < EffPri(s.obj, x.bpri, x.locks)
    requires Before(Place(s, t, x, true).ready, a, b)
    ensures Above(Place(s, t, x, true), a, b)
  {
    var s1 := Place(s, t, x, true);
    PlaceMoved(s, t, x, true);
    FallOrder(s, t, x, a, b);
    if a != t && b != t {
      assert AheadAt(s, a, b);
    } else if a == t {
      FellAheadOf(s, t, x, b);
    } else {
      FellBehind(s, t, x, a);
    }
    forall m: nat ensures AboveAt(s1, a, b, m) { assert a == t || b != t ==> AboveAt(s, a, b, m); }
  }

  /** The order after a fall: the old one, but for `t`, which is where its new priority puts it. */
  lemma FallOrder(s: K, t: nat, x: Task, a: nat, b: nat)
    requires WellFormed(s) && ReadyInv(s) && WaitInv(s) && IsRunnable(s, t) && x.stat.Runnable?
    requires Before(Place(s, t, x, true).ready, a, b)
    ensures
      || (a != t && b != t && Before(s.ready, a, b))
      || (a == t && b != t && IsRunnable(s, b) && EffPri(s.obj, x.bpri, x.locks) <= Pri(s, b))
      || (b == t && a != t && IsRunnable(s, a) && Pri(s, a) < EffPri(s.obj, x.bpri, x.locks))
  {
    PlaceReady(s, t, x, true);
    ReseatedOrder(s, Place(s, t, x, true), t, x, true, a, b);
  }

  /** Whoever `t` is still ahead of, it was ahead of before. */
  lemma FellAheadOf(s: K, t: nat, x: Task, b: nat)
    requires Core(s, None, None) && Proto(s, None) && IsRunnable(s, t) && IsRunnable(s, b) && b != t
    requires Pri(s, t) < EffPri(s.obj, x.bpri, x.locks) <= Pri(s, b)
    ensures Above(s, t, b)
  {
    assert ReadyAt(s, t) && ReadyAt(s, b) && AheadAt(s, t, b);
    BeforeTotal(s.ready, t, b);
    if Before(s.ready, b, t) { BeforeSorted(Pris(s), s.ready, b, t); }
  }

  /** Whoever gets ahead of `t` owes it to a base priority above all that `t` still has locked. */
  lemma FellBehind(s: K, t: nat, x: Task, a: nat)
    requires Core(s, None, None) && Proto(s, None) && IsRunnable(s, t) && IsRunnable(s, a) && a != t
    requires x == Tsk(s, t).(locks := x.locks) && forall o :: o in x.locks ==> o in Tsk(s, t).locks
    requires Pri(s, a) < EffPri(s.obj, x.bpri, x.locks)
    ensures forall m: nat :: m in x.locks && IsCeil(s.obj, m) ==> Tsk(s, a).bpri < Ceiling(s.obj, m)
  {
    EffPriIsMin(s.obj, x.bpri, x.locks);
    EffPriIsMin(s.obj, Tsk(s, a).bpri, Tsk(s, a).locks);
    assert ReadyAt(s, t) && ReadyAt(s, a) && AheadAt(s, a, t) && AheadAt(s, t, a) && PriOk(s, t);
    BeforeTotal(s.ready, a, t);
    if Before(s.ready, a, t) {
      assert Above(s, a, t);
      assert forall m: nat :: m in x.locks && IsCeil(s.obj, m) ==> AboveAt(s, a, t, m);
    } else {
      if Pri(s, a) != Tsk(s, a).bpri {
        var h :| h in Tsk(s, a).locks && Pri(s, a) == Ceiling(s.obj, h);
        AboveCeiling(s, t, a, h);
        assert false;
      }
    }
  }

  lemma AboveCeiling(s: K, a: nat, b: nat, m: nat)
    requires Above(s, a, b) && m in Tsk(s, b).locks && Ceiling(s.obj, m) < TNUM_TPRI
    ensures Tsk(s, a).bpri < Ceiling(s.obj, m)
  {
    assert AboveAt(s, a, b, m);
  }

  /** A head of the precedence list that locks one more mutex stays there, so nobody is ahead of it. */
  lemma AcquireAhead(s: K, s1: K, t: nat, m: nat, a: nat, b: nat)
    requires ReadyInv(s) && s.ready != [] && s.ready[0] == t && s1.ready == s.ready && s1.obj == s.obj
    requires forall y: nat :: y != t ==> Tsk(s1, y) == Tsk(s, y)
    requires Tsk(s1, t).bpri == Tsk(s, t).bpri && AheadAt(s, a, b)
    ensures AheadAt(s1, a, b)
  {
    if Before(s.ready, a, b) {
      NoneBeforeHead(s.ready, a, b);
      forall k: nat ensures AboveAt(s1, a, b, k) { assert AboveAt(s, a, b, k); }
    }
  }

  lemma AcquireFacts(s: K, m: nat)
    requires Inv(s) && Proto(s, None) && !s.ctx && s.run.Some? && IsMtx(s.obj, m) && Own(s, m) == None
    ensures var t := Self(s);
      var s0, s1 := SetOwn(s, m, Some(t)), Acquire(s, t, m);
      && WaitInv(s0) && WaitInv(s1) && Moved(s0, s1, t, Tsk(s, t).(locks := Tsk(s, t).locks + [m]))
      && s.ready != [] && s.ready[0] == t && s1.ready == s.ready
  {
    var t := Self(s);
    var s0 := SetOwn(s, m, Some(t));
    var locks := Tsk(s, t).locks + [m];
    OwnQueues(s, m, Some(t));
    assert WellFormed(s0) by {
      forall y: nat ensures PriOk(s0, y) { assert PriOk(s, y); }
      forall o: nat ensures ObjOk(s0, o) { assert ObjOk(s, o); }
    }
    RelockFacts(s0, t, locks);
    assert locks[..|locks| - 1] == Tsk(s, t).locks && ReadyAt(s, t);
    HeadStays(s0, t, locks);
  }

  lemma AcquireProto(s: K, m: nat)
    requires Inv(s) && Proto(s, None) && !s.ctx && s.run.Some? && IsMtx(s.obj, m) && Own(s, m) == None
    ensures Proto(Acquire(s, Self(s), m), None)
  {
    var t := Self(s);
    var s0, s1 := SetOwn(s, m, Some(t)), Acquire(s, t, m);
    AcquireFacts(s, m);
    SameProto(s, s0, None);
    forall a: nat, b: nat ensures AheadAt(s1, a, b) {
      assert AheadAt(s, a, b);
      AcquireAhead(s, s1, t, m, a, b);
    }
    forall y: nat ensures HolderAt(s1, y, None) { assert HolderAt(s, y, None); }
    forall o: nat ensures FreeAt(s1, o) {
      assert FreeAt(s0, o);
      QueueStaysFree(s0, s1, t, Tsk(s, t).(locks := Tsk(s, t).locks + [m]), o);
    }
  }

  lemma ReleaseProto(s: K, m: nat, ending: Option<nat>)
    requires Core(s, ending, Some(m)) && Proto(s, ending) && IsMtx(s.obj, m)
    requires ending.Some? ==> Tsk(s, ending.value).stat.Dormant?
    ensures Proto(Release(s, m), ending)
  {
    if Que(s, m) == [] {
      SameProto(s, Release(s, m), ending);
    } else {
      var w := Que(s, m)[0];
      assert QueInv(s, m) && QueAt(s, m, w) && HolderAt(s, w, ending) && FreeAt(s, m) && PriOk(s, w);
      var x := Released(Tsk(s, w), Ok).(locks := Tsk(s, w).locks + [m]);
      PlaceProto(s, w, x, ending);
      SameProto(Place(s, w, x, false), Release(s, m), ending);
    }
  }

  lemma {:induction false} ReleaseAllProto(s: K, t: nat, locks: seq<nat>)
    requires Core(s, Some(t), None) && Proto(s, Some(t)) && t < |s.tsk|
    requires Tsk(s, t).stat.Dormant? && Tsk(s, t).locks == locks
    ensures Proto(ReleaseAll(s, t, locks), None)
    decreases |locks|
  {
    if locks == [] {
      forall y: nat ensures HolderAt(s, y, None) { assert HolderAt(s, y, Some(t)); }
    } else {
      var n := |locks| - 1;
      ReleaseOneProto(s, t, locks);
      ReleaseAllProto(Release(SetTsk(s, t, Tsk(s, t).(locks := locks[..n])), locks[n]), t, locks[..n]);
    }
  }

  lemma ReleaseOneProto(s: K, t: nat, locks: seq<nat>)
    requires Core(s, Some(t), None) && Proto(s, Some(t)) && t < |s.tsk|
    requires Tsk(s, t).stat.Dormant? && Tsk(s, t).locks == locks != []
    ensures var n := |locks| - 1;
      var s2 := Release(SetTsk(s, t, Tsk(s, t).(locks := locks[..n])), locks[n]);
      && Core(s2, Some(t), None) && Proto(s2, Some(t)) && t < |s2.tsk|
      && Tsk(s2, t).stat.Dormant? && Tsk(s2, t).locks == locks[..n]
  {
    var n := |locks| - 1;
    var m := locks[n];
    var x := Tsk(s, t).(locks := locks[..n]);
    var s1 := SetTsk(s, t, x);
    ShedCore(s, t);
    SetProto(s, t, x, Some(t));
    assert LockAt(s, t, m, None) && OwnAt(s, m, None) && QueInv(s1, m) && QueAt(s1, m, t);
    ReleaseProto(s1, m, Some(t));
    ReleaseCore(s1, m, Some(t));
  }

  lemma TerminateProto(s: K, t: nat)
    requires Core(s, None, None) && Proto(s, None) && t < |s.tsk|
    ensures Proto(Terminate(s, t), None)
  {
    FitsSelf(s, t, None, None);
    var x := Ended(Tsk(s, t));
    var s1 := Place(s, t, x, false);
    CoreEnding(s, t);
    PlaceCore(s, t, x, false, Some(t), None);
    forall y: nat ensures HolderAt(s, y, Some(t)) { assert HolderAt(s, y, None); }
    PlaceProto(s, t, x, Some(t));
    ReleaseAllCore(s1, t, x.locks);
    ReleaseAllProto(s1, t, x.locks);
    var s2 := ReleaseAll(s1, t, x.locks);
    if Tsk(s2, t).actque {
      var x2 := Tsk(s2, t).(actque := false);
      var s3 := SetTsk(s2, t, x2);
      EndedQueues(s2, t, x2);
      MovedWell(s2, s3, t, x2) by { assert PriOk(s2, t) && TaskOk(Tsk(s2, t)); }
      SetProto(s2, t, x2, None);
      assert PriOk(s3, t);
      PlaceProto(s3, t, x2.(stat := Runnable), None);
    }
  }

  lemma WakeProto(s: K, t: nat, x: Task)
    requires Core(s, None, None) && Proto(s, None) && t < |s.tsk| && !IsRunnable(s, t)
    requires x.bpri == Tsk(s, t).bpri && x.locks == Tsk(s, t).locks && !x.stat.Waiting?
    ensures Proto(Place(s, t, x, false), None)
  {
    assert HolderAt(s, t, None) && PriOk(s, t);
    PlaceProto(s, t, x, None);
  }

  lemma {:induction false} UnwaitAllProto(s: K, o: nat, q: seq<nat>, er: ER)
    requires Core(s, None, None) && Proto(s, None) && q == Que(s, o)
    ensures Proto(UnwaitAll(s, q, er), None)
    decreases |q|
  {
    if q != [] {
      assert QueInv(s, o) && QueAt(s, o, q[0]);
      WakeProto(s, q[0], Released(Tsk(s, q[0]), er));
      UnwaitCore(s, q[0], er, None, None);
      HeadLeaves(s, o, Released(Tsk(s, q[0]), er));
      UnwaitAllProto(Unwait(s, q[0], er), o, q[1..], er);
    }
  }

  // ---------- service calls keep it ----------

  /** A ceiling mutex a task may ask for is free or its own. */
  lemma CeilingIsFree(s: K, m: nat)
    requires Inv(s) && Proto(s, None) && !s.ctx && s.run.Some? && IsCeil(s.obj, m)
    requires Ceiling(s.obj, m) <= Tsk(s, Self(s)).bpri
    ensures Own(s, m) == None || Own(s, m) == s.run
  {
    var t := Self(s);
    if Own(s, m).Some? && Own(s, m) != s.run {
      var h := Own(s, m).value;
      assert OwnAt(s, m, None) && HolderAt(s, h, None) && ReadyAt(s, h) && ReadyAt(s, t);
      assert AheadAt(s, t, h);
      assert Before(s.ready, t, h) ==> AboveAt(s, t, h, m);
      BeforeTotal(s.ready, t, h);
      if Before(s.ready, h, t) { NoneBeforeHead(s.ready, h, t); }
    }
  }

  /** A task that holds no ceiling mutex goes anywhere but into the queue of one. */
  lemma PlainProto(s: K, t: nat, x: Task)
    requires Core(s, None, None) && Proto(s, None) && t < |s.tsk| && !HoldsCeil(s, t)
    requires x.bpri < TNUM_TPRI && x.locks == Tsk(s, t).locks
    requires x.stat.Waiting? && x.stat.why.On? ==> x.stat.why.obj < |s.obj| && !IsCeil(s.obj, x.stat.why.obj)
    ensures Proto(Dispatch(Place(s, t, x, false)), None) && Proto(Place(s, t, x, false), None)
  {
    PlaceProto(s, t, x, None);
    SameProto(Place(s, t, x, false), Dispatch(Place(s, t, x, false)), None);
  }

  lemma SleepProto(s: K, why: Reason, timed: bool)
    requires Inv(s) && Proto(s, None) && s.run.Some? && !HoldsCeil(s, Self(s))
    requires why.On? ==> why.obj < |s.obj| && !IsCeil(s.obj, why.obj)
    ensures Proto(Dispatch(Block(s, Self(s), why, timed)), None)
  {
    assert PriOk(s, Self(s));
    PlainProto(s, Self(s), Tsk(s, Self(s)).(stat := Waiting(why, false), winfo := Timer(timed)));
  }

  lemma UnwaitProto(s: K, t: nat, er: ER)
    requires Inv(s) && Proto(s, None) && IsWaiting(s, t)
    ensures Proto(Resched(Unwait(s, t, er)), None)
  {
    WakeProto(s, t, Released(Tsk(s, t), er));
    SameProto(Unwait(s, t, er), Resched(Unwait(s, t, er)), None);
  }

  lemma FlagProto(s: K, t: nat, x: Task)
    requires Inv(s) && Proto(s, None) && t < |s.tsk|
    requires x.stat.Runnable? <==> IsRunnable(s, t)
    requires x.locks == Tsk(s, t).locks && x.bpri == Tsk(s, t).bpri
    ensures Proto(SetTsk(s, t, x), None)
  {
    SetProto(s, t, x, None);
  }

  lemma EndProto(s: K, t: nat)
    requires Core(s, None, None) && Proto(s, None) && t < |s.tsk|
    ensures Proto(Dispatch(Terminate(s, t)), None)
  {
    TerminateProto(s, t);
    SameProto(Terminate(s, t), Dispatch(Terminate(s, t)), None);
  }

  lemma ActTskProto(s: K, t: nat)
    requires Inv(s) && Proto(s, None)
    ensures Proto(ActTsk(s, t).0, None)
  {
    if t < |s.tsk| && Tsk(s, t).stat.Dormant? {
      WakeProto(s, t, Tsk(s, t).(stat := Runnable));
      SameProto(Wake(s, t), Resched(Wake(s, t)), None);
    } else if ActTsk(s, t).1 == Ok {
      FlagProto(s, t, Tsk(s, t).(actque := true));
    }
  }

  lemma SlpTskProto(s: K, tmo: nat)
    requires Inv(s) && Proto(s, None) && (s.ctx || s.run.Some?)
    requires SlpTsk(s, tmo).1 == Blocked ==> !HoldsCeil(s, Self(s))
    ensures Proto(SlpTsk(s, tmo).0, None)
  {
    var er := SlpTsk(s, tmo).1;
    if er == Blocked {
      SleepProto(s, Sleep, tmo != TMO_FEVR);
    } else if er == Ok {
      FlagProto(s, Self(s), Tsk(s, Self(s)).(wupque := false));
    }
  }

  lemma WupTskProto(s: K, t: nat)
    requires Inv(s) && Proto(s, None)
    ensures Proto(WupTsk(s, t).0, None)
  {
    if t < |s.tsk| && IsWaiting(s, t) && Tsk(s, t).stat.why == Sleep {
      UnwaitProto(s, t, Ok);
    } else if WupTsk(s, t).1 == Ok {
      FlagProto(s, t, Tsk(s, t).(wupque := true));
    }
  }

  lemma ChgPriProto(s: K, t: nat, tskpri: nat)
    requires Inv(s) && Proto(s, None) && !HoldsCeil(s, t)
    ensures Proto(ChgPri(s, t, tskpri).0, None)
  {
    if ChgPri(s, t, tskpri).1 == Ok {
      var x := Tsk(s, t);
      assert PriOk(s, t);
      var x' := x.(bpri := if tskpri == 0 then x.ipri else tskpri - 1);
      var s1 := Replace(s, t, x', false);
      if x.stat.Waiting? {
        SetProto(s, t, x', None);
        if x.stat.why.On? {
          assert QueInv(s, x.stat.why.obj) && QueAt(s, x.stat.why.obj, t) && FreeAt(s, x.stat.why.obj);
          PlainProto(s, t, x');
        }
      } else {
        PlainProto(s, t, x');
      }
      SameProto(s1, Dispatch(s1), None);
    }
  }

  lemma SusTskProto(s: K, t: nat)
    requires Inv(s) && Proto(s, None) && !HoldsCeil(s, t)
    ensures Proto(SusTsk(s, t).0, None)
  {
    var x := Tsk(s, t);
    assert PriOk(s, t);
    if SusTsk(s, t).1 == Ok {
      if x.stat.Runnable? { PlainProto(s, t, x.(stat := Suspended)); }
      else { FlagProto(s, t, x.(stat := Waiting(x.stat.why, true))); }
    }
  }

  lemma RsmTskProto(s: K, t: nat)
    requires Inv(s) && Proto(s, None)
    ensures Proto(RsmTsk(s, t).0, None)
  {
    var x := Tsk(s, t);
    if RsmTsk(s, t).1 == Ok {
      if x.stat.Suspended? {
        WakeProto(s, t, x.(stat := Runnable));
        SameProto(Wake(s, t), Dispatch(Wake(s, t)), None);
      } else {
        FlagProto(s, t, x.(stat := Waiting(x.stat.why, false)));
      }
    }
  }

  lemma ExtTskProto(s: K)
    requires Inv(s) && Proto(s, None) && (s.ctx || s.run.Some?)
    ensures Proto(ExtTsk(s).0, None)
  {
    if !s.ctx {
      EndProto(s, Self(s));
      assert s.(enadsp := true, ipmopen := true) == s;
    }
  }

  lemma EnaTerProto(s: K)
    requires Inv(s) && Proto(s, None) && (s.ctx || s.run.Some?)
    ensures Proto(EnaTer(s).0, None)
  {
    var r := Self(s);
    if !s.ctx {
      if Tsk(s, r).raster && Dsp(s) { EndProto(s, r); } else { FlagProto(s, r, Tsk(s, r).(enater := true)); }
    }
  }

  lemma DisTerProto(s: K)
    requires Inv(s) && Proto(s, None) && (s.ctx || s.run.Some?)
    ensures Proto(DisTer(s).0, None)
  {
    if !s.ctx { FlagProto(s, Self(s), Tsk(s, Self(s)).(enater := false)); }
  }

  lemma TerTskProto(s: K, t: nat)
    requires Inv(s) && Proto(s, None)
    ensures Proto(TerTsk(s, t).0, None)
  {
    if TerTsk(s, t).1 == Ok { EndProto(s, t); }
  }

  lemma EnaDspProto(s: K)
    requires Inv(s) && Proto(s, None) && (s.ctx || s.run.Some?)
    ensures Proto(EnaDsp(s).0, None)
  {
    if !s.ctx {
      OpenedProto(s);
      assert s.(enadsp := true) == s;
    }
  }

  lemma ChgIpmProto(s: K)
    requires Inv(s) && Proto(s, None) && (s.ctx || s.run.Some?)
    ensures Proto(ChgIpm(s, true).0, None)
  {
    if !s.ctx {
      OpenedProto(s);
      assert s.(ipmopen := true) == s;
    }
  }

  lemma OpenedProto(s: K)
    requires Inv(s) && Proto(s, None) && s.run.Some?
    ensures Proto(Opened(s), None)
  {
    var x := Tsk(s, Self(s));
    if x.raster && x.enater { EndProto(s, Self(s)); } else { SameProto(s, Dispatch(s), None); }
  }

  lemma RasTerProto(s: K, t: nat)
    requires Inv(s) && Proto(s, None)
    ensures Proto(RasTer(s, t).0, None)
  {
    var x := Tsk(s, t);
    if RasTer(s, t).1 == Ok {
      if x.enater { EndProto(s, t); }
      else if x.stat.Runnable? { FlagProto(s, t, x.(raster := true)); }
      else {
        var w := if x.stat.Waiting? then Result(ERaster) else x.winfo;
        var x' := x.(stat := Runnable, raster := true, winfo := w);
        WakeProto(s, t, x');
        SameProto(Place(s, t, x', false), Dispatch(Place(s, t, x', false)), None);
      }
    }
  }

  lemma RotateProto(s: K, p: nat)
    requires Inv(s) && Proto(s, None) && forall t :: t in s.ready && Rotated(s, p, t) ==> !HoldsCeil(s, t)
    ensures Proto(Rotate(s, p), None)
  {
    var i := Slot(Pris(s), s.ready, p, true);
    if i < |s.ready| && At(Pris(s), s.ready[i]) == p {
      var t := s.ready[i];
      assert t in s.ready && Rotated(s, p, t) && ReadyAt(s, t) && PriOk(s, t);
      PlainProto(s, t, Tsk(s, t));
    }
  }

  lemma RotRdqProto(s: K, tskpri: nat)
    requires Inv(s) && Proto(s, None) && Disciplined(s, Do(CRotRdq(tskpri)))
    ensures Proto(RotRdq(s, tskpri).0, None)
  {
    var p := if tskpri == 0 then Tsk(s, Self(s)).bpri else tskpri - 1;
    RotateProto(s, p);
    SameProto(Rotate(s, p), Resched(Rotate(s, p)), None);
  }

  lemma LocMtxProto(s: K, m: nat, tmo: nat)
    requires Inv(s) && Proto(s, None) && (s.ctx || s.run.Some?)
    requires LocMtx(s, m, tmo).1 == Blocked ==> !HoldsCeil(s, Self(s))
    ensures Proto(LocMtx(s, m, tmo).0, None)
  {
    var er := LocMtx(s, m, tmo).1;
    if er == Ok {
      AcquireProto(s, m);
    } else if er == Blocked {
      if IsCeil(s.obj, m) { CeilingIsFree(s, m); } else { SleepProto(s, On(m), tmo != TMO_FEVR); }
    }
  }

  lemma UnlMtxProto(s: K, m: nat)
    requires Inv(s) && Proto(s, None)
    ensures Proto(UnlMtx(s, m).0, None)
  {
    var t := Self(s);
    if UnlMtx(s, m).1 == Ok {
      DropProto(s, t, m);
      DropCore(s, t, m);
      ReleaseProto(Relock(s, t, Remove(Tsk(s, t).locks, m)), m, None);
      SameProto(Unlock(s, t, m), Dispatch(Unlock(s, t, m)), None);
    }
  }

  lemma WaiSemProto(s: K, o: nat, tmo: nat)
    requires Inv(s) && Proto(s, None) && (s.ctx || s.run.Some?)
    requires WaiSem(s, o, tmo).1 == Blocked ==> !HoldsCeil(s, Self(s))
    ensures Proto(WaiSem(s, o, tmo).0, None)
  {
    var er := WaiSem(s, o, tmo).1;
    if er == Ok {
      SameProto(s, WaiSem(s, o, tmo).0, None);
    } else if er == Blocked {
      SleepProto(s, On(o), tmo != TMO_FEVR);
    }
  }

  lemma SigSemProto(s: K, o: nat)
    requires Inv(s) && Proto(s, None)
    ensures Proto(SigSem(s, o).0, None)
  {
    if IsSem(s.obj, o) && Que(s, o) != [] {
      assert QueInv(s, o) && QueAt(s, o, Que(s, o)[0]);
      UnwaitProto(s, Que(s, o)[0], Ok);
    } else {
      SameProto(s, SigSem(s, o).0, None);
    }
  }

  lemma IniSemProto(s: K, o: nat)
    requires Inv(s) && Proto(s, None)
    ensures Proto(IniSem(s, o).0, None)
  {
    if IniSem(s, o).1 == Ok {
      UnwaitAllProto(s, o, Que(s, o), EDlt);
      SameProto(UnwaitAll(s, Que(s, o), EDlt), IniSem(s, o).0, None);
    }
  }

  lemma IniMtxProto(s: K, m: nat)
    requires Inv(s) && Proto(s, None)
    ensures Proto(IniMtx(s, m).0, None)
  {
    if IniMtx(s, m).1 == Ok {
      UnwaitAllCore(s, m, Que(s, m), EDlt);
      UnwaitAllProto(s, m, Que(s, m), EDlt);
      var s1 := UnwaitAll(s, Que(s, m), EDlt);
      if Own(s1, m).Some? {
        var h := Own(s1, m).value;
        assert OwnAt(s1, m, None);
        DropProto(s1, h, m);
        SameProto(Relock(s1, h, Remove(Tsk(s1, h).locks, m)), IniMtx(s, m).0, None);
      } else {
        SameProto(s1, Dispatch(s1), None);
      }
    }
  }

  lemma TaskCallProto(s: K, c: Call)
    requires Inv(s) && Proto(s, None) && (s.ctx || s.run.Some?) && Disciplined(s, Do(c))
    requires c.CActTsk? || c.CChgPri? || c.CSlpTsk? || c.CDlyTsk? || c.CWupTsk? || c.CRelWai? || c.CSusTsk? || c.CRsmTsk?
    ensures Proto(DoCall(s, c).0, None)
  {
    match c
    case CActTsk(t) => ActTskProto(s, t);
    case CChgPri(t, p) => ChgPriProto(s, t, p);
    case CSlpTsk(tmo) => SlpTskProto(s, tmo);
    case CDlyTsk(d) => if DlyTsk(s, d).1 == Blocked { SleepProto(s, Delay, true); }
    case CWupTsk(t) => WupTskProto(s, t);
    case CRelWai(t) => if RelWai(s, t).1 == Ok { UnwaitProto(s, t, ERlwai); }
    case CSusTsk(t) => SusTskProto(s, t);
    case CRsmTsk(t) => RsmTskProto(s, t);
  }

  lemma EndCallProto(s: K, c: Call)
    requires Inv(s) && Proto(s, None) && (s.ctx || s.run.Some?) && Disciplined(s, Do(c))
    requires c.CExtTsk? || c.CRasTer? || c.CDisTer? || c.CEnaTer? || c.CTerTsk? || c.CRotRdq? || c.CDisDsp? || c.CEnaDsp? || c.CChgIpm?
    ensures Proto(DoCall(s, c).0, None)
  {
    match c
    case CExtTsk => ExtTskProto(s);
    case CRasTer(t) => RasTerProto(s, t);
    case CDisTer => DisTerProto(s);
    case CEnaTer => EnaTerProto(s);
    case CTerTsk(t) => TerTskProto(s, t);
    case CRotRdq(p) => RotRdqProto(s, p);
    case CDisDsp =>
    case CEnaDsp => EnaDspProto(s);
    case CChgIpm(_) => ChgIpmProto(s);
  }

  lemma ObjCallProto(s: K, c: Call)
    requires Inv(s) && Proto(s, None) && (s.ctx || s.run.Some?) && Disciplined(s, Do(c))
    requires c.CLocMtx? || c.CPlocMtx? || c.CUnlMtx? || c.CIniMtx? || c.CWaiSem? || c.CPolSem? || c.CSigSem? || c.CIniSem?
    ensures Proto(DoCall(s, c).0, None)
  {
    match c
    case CLocMtx(m, tmo) => LocMtxProto(s, m, tmo);
    case CPlocMtx(m) => if PlocMtx(s, m).1 == Ok { AcquireProto(s, m); }
    case CUnlMtx(m) => UnlMtxProto(s, m);
    case CIniMtx(m) => IniMtxProto(s, m);
    case CWaiSem(o, tmo) => WaiSemProto(s, o, tmo);
    case CPolSem(o) => SameProto(s, PolSem(s, o).0, None);
    case CSigSem(o) => SigSemProto(s, o);
    case CIniSem(o) => IniSemProto(s, o);
  }

  lemma NextProto(s: K, e: Step)
    requires Inv(s) && Proto(s, None) && Disciplined(s, e)
    ensures Proto(Next(s, e), None)
  {
    match e
    case Do(c) =>
      if s.ctx || s.run.Some? {
        if c.CActTsk? || c.CChgPri? || c.CSlpTsk? || c.CDlyTsk? || c.CWupTsk? || c.CRelWai? || c.CSusTsk? || c.CRsmTsk? {
          TaskCallProto(s, c);
        } else if c.CLocMtx? || c.CPlocMtx? || c.CUnlMtx? || c.CIniMtx? || c.CWaiSem? || c.CPolSem? || c.CSigSem? || c.CIniSem? {
          ObjCallProto(s, c);
        } else {
          EndCallProto(s, c);
        }
      }
    case IntEnter => SameProto(s, Next(s, e), None);
    case IntExit => SameProto(s, Next(s, e), None);
    case TimeEvent(t) =>
      if s.ctx && Timed(s, t) { UnwaitProto(s, t, if Tsk(s, t).stat.why == Delay then Ok else ETmout); }
  }

  lemma {:induction false} AlwaysProto(s: K, es: seq<Step>)
    requires Initial(s) && DisciplinedRun(s, es)
    ensures Inv(Run(s, es)) && Proto(Run(s, es), None)
    decreases |es|
  {
    AlwaysInv(s, es);
    if es == [] {
      forall y: nat ensures HolderAt(s, y, None) {}
      forall o: nat ensures FreeAt(s, o) {}
      forall a: nat, b: nat ensures AheadAt(s, a, b) {}
    } else {
      var before := es[..|es| - 1];
      AlwaysInv(s, before);
      AlwaysProto(s, before);
      NextProto(Run(s, before), es[|es| - 1]);
    }
  }

  /** The theorem: in every disciplined run, a task that the ceiling admits gets a ceiling mutex at once, unless it
      has it already; so nobody ever waits for one. */
  lemma {:induction false} CeilingNeverBlocks(s: K, es: seq<Step>, m: nat, tmo: nat)
    requires Initial(s) && DisciplinedRun(s, es) && IsCeil(Run(s, es).obj, m)
    ensures var k := Run(s, es);
      && (forall t: nat :: !WaitsOn(k, t, m))
      && (!k.ctx && k.run.Some? ==>
            && LocMtx(k, m, tmo).1 != Blocked && LocMtx(k, m, tmo).1 != ETmout && PlocMtx(k, m).1 != ETmout
            && (k.obj[m].ceil <= Tsk(k, k.run.value).bpri && Own(k, m) != k.run ==>
                  && PlocMtx(k, m).1 == Ok
                  && (ValidTmo(tmo) && !Tsk(k, k.run.value).raster ==> LocMtx(k, m, tmo).1 == Ok)))
  {
    var k := Run(s, es);
    AlwaysProto(s, es);
    assert FreeAt(k, m) && QueInv(k, m);
    forall t: nat ensures !WaitsOn(k, t, m) { assert QueAt(k, m, t); }
    if !k.ctx && k.run.Some? && Ceiling(k.obj, m) <= Tsk(k, Self(k)).bpri { CeilingIsFree(k, m); }
  }
}
