/** What each movement of tasks and locks keeps of the invariant. */
module KernelOps {
  import opened PriorityList
  import opened KernelSpec
  import opened KernelInv

  /** Nothing global has changed, and no task but `t` has stopped being runnable or had its termination
      flags touched. */
  ghost predicate Kept(s: K, s1: K, t: nat) {
    && s1 == s.(tsk := s1.tsk, wq := s1.wq, cnt := s1.cnt, own := s1.own, ready := s1.ready)
    && |s1.tsk| == |s.tsk|
    && (forall y: nat :: y != t ==> KeptAt(s, s1, y))
  }

  ghost predicate KeptAt(s: K, s1: K, y: nat) {
    && (IsRunnable(s, y) ==> IsRunnable(s1, y))
    && Tsk(s1, y).raster == Tsk(s, y).raster && Tsk(s1, y).enater == Tsk(s, y).enater
  }

  lemma KeptTrans(s: K, s1: K, s2: K, t: nat)
    requires Kept(s, s1, t) && Kept(s1, s2, t)
    ensures Kept(s, s2, t)
  {
    forall y: nat | y != t ensures KeptAt(s, s2, y) { assert KeptAt(s, s1, y) && KeptAt(s1, s2, y); }
  }

  lemma MovedKept(s: K, s1: K, t: nat, x: Task)
    requires Moved(s, s1, t, x)
    ensures Kept(s, s1, t)
  {
    forall y: nat | y != t ensures KeptAt(s, s1, y) {}
  }

  /** A task that becomes runnable without a change to its termination flags. */
  lemma MovedKeptAll(s: K, s1: K, t: nat, x: Task)
    requires Moved(s, s1, t, x) && x.raster == Tsk(s, t).raster && x.enater == Tsk(s, t).enater
    requires IsRunnable(s, t) ==> x.stat.Runnable?
    ensures Kept(s, s1, |s.tsk|)
  {
    forall y: nat ensures KeptAt(s, s1, y) {}
  }

  // ---------- waking and blocking ----------

  lemma WakeCore(s: K, t: nat, ending: Option<nat>, free: Option<nat>)
    requires Core(s, ending, free) && t < |s.tsk| && Some(t) != ending
    requires Tsk(s, t).stat.Dormant? || Tsk(s, t).stat.Suspended?
    ensures var s1 := Wake(s, t);
      && Core(s1, ending, free) && Moved(s, s1, t, Tsk(s, t).(stat := Runnable)) && Kept(s, s1, |s.tsk|)
  {
    FitsSelf(s, t, ending, free);
    var x := Tsk(s, t).(stat := Runnable);
    forall o: nat ensures CeilFitsAt(s.obj, x, o) { assert CeilFitsAt(s.obj, Tsk(s, t), o); }
    PlaceCore(s, t, x, false, ending, free);
    MovedKeptAll(s, Wake(s, t), t, x);
  }

  lemma UnwaitCore(s: K, t: nat, er: ER, ending: Option<nat>, free: Option<nat>)
    requires Core(s, ending, free) && IsWaiting(s, t) && Some(t) != ending
    ensures var s1 := Unwait(s, t, er);
      && Core(s1, ending, free) && Moved(s, s1, t, Released(Tsk(s, t), er)) && Kept(s, s1, |s.tsk|)
  {
    FitsSelf(s, t, ending, free);
    var x := Released(Tsk(s, t), er);
    forall o: nat ensures CeilFitsAt(s.obj, x, o) { assert CeilFitsAt(s.obj, Tsk(s, t), o); }
    PlaceCore(s, t, x, false, ending, free);
    MovedKeptAll(s, Unwait(s, t, er), t, x);
  }

  lemma BlockCore(s: K, t: nat, why: Reason, timed: bool)
    requires Core(s, None, None) && IsRunnable(s, t) && !Tsk(s, t).raster && (why == Delay ==> timed)
    requires why.On? ==> MayWait(s, t, why.obj) && (IsCeil(s.obj, why.obj) ==> Ceiling(s.obj, why.obj) <= Tsk(s, t).bpri)
    ensures var s1 := Block(s, t, why, timed); Core(s1, None, None) && Kept(s, s1, t)
  {
    FitsSelf(s, t, None, None);
    var x := Tsk(s, t).(stat := Waiting(why, false), winfo := Timer(timed));
    forall o: nat ensures CeilFitsAt(s.obj, x, o) { assert CeilFitsAt(s.obj, Tsk(s, t), o); }
    PlaceCore(s, t, x, false, None, None);
    MovedKept(s, Block(s, t, why, timed), t, x);
  }

  /** Releasing every waiter of an object leaves its queue empty and its other data alone. */
  lemma {:induction false} UnwaitAllCore(s: K, o: nat, q: seq<nat>, er: ER)
    requires Core(s, None, None) && q == Que(s, o)
    ensures var s1 := UnwaitAll(s, q, er);
      && Core(s1, None, None) && Kept(s, s1, |s.tsk|) && Que(s1, o) == []
      && s1.cnt == s.cnt && s1.own == s.own && |s1.wq| == |s.wq|
      && forall y: nat :: Tsk(s1, y).locks == Tsk(s, y).locks && Tsk(s1, y).bpri == Tsk(s, y).bpri
    decreases |q|
  {
    if q == [] {
      forall y: nat ensures KeptAt(s, s, y) {}
    } else {
      var s1 := Unwait(s, q[0], er);
      UnwaitHead(s, o, er);
      UnwaitAllCore(s1, o, q[1..], er);
      KeptTrans(s, s1, UnwaitAll(s, q, er), |s.tsk|);
    }
  }

  lemma UnwaitHead(s: K, o: nat, er: ER)
    requires Core(s, None, None) && Que(s, o) != []
    ensures var s1 := Unwait(s, Que(s, o)[0], er);
      && Core(s1, None, None) && Kept(s, s1, |s.tsk|) && Que(s1, o) == Que(s, o)[1..]
      && s1.cnt == s.cnt && s1.own == s.own && |s1.wq| == |s.wq| && |s1.tsk| == |s.tsk|
      && forall y: nat :: Tsk(s1, y).locks == Tsk(s, y).locks && Tsk(s1, y).bpri == Tsk(s, y).bpri
  {
    var w := Que(s, o)[0];
    assert QueInv(s, o) && QueAt(s, o, w);
    UnwaitCore(s, w, er, None, None);
    HeadLeaves(s, o, Released(Tsk(s, w), er));
  }

  /** When the head of a queue moves elsewhere, the rest of the queue stays as it is. */
  lemma HeadLeaves(s: K, o: nat, x: Task)
    requires WellFormed(s) && WaitInv(s) && Que(s, o) != []
    requires !(x.stat.Waiting? && x.stat.why.On?)
    ensures Que(Place(s, Que(s, o)[0], x, false), o) == Que(s, o)[1..]
  {
    var w := Que(s, o)[0];
    assert QueInv(s, o) && QueAt(s, o, w);
    LeaveQue(s, w, o);
    assert IndexOf(Que(s, o), w) == 0;
  }

  // ---------- locks ----------

  /** A change of priority, with the new place, keeps every queue in order. */
  lemma ReplaceFacts(s: K, t: nat, x: Task, front: bool)
    requires WellFormed(s) && ReadyInv(s) && WaitInv(s) && t < |s.tsk| && x.stat == Tsk(s, t).stat
    ensures var s1 := Replace(s, t, x, front); ReadyInv(s1) && WaitInv(s1) && Moved(s, s1, t, x)
  {
    if x.stat.Waiting? && !(x.stat.why.On? && ByPriority(s.obj, x.stat.why.obj)) {
      var s1 := SetTsk(s, t, x);
      assert forall y: nat :: y != t ==> Tsk(s1, y) == Tsk(s, y) && At(Pris(s1), y) == At(Pris(s), y);
      assert ReadyAt(s, t);
      SortedFrame(Pris(s), Pris(s1), s.ready);
      forall y: nat ensures ReadyAt(s1, y) { assert ReadyAt(s, y); }
      forall o: nat ensures QueInv(s1, o) {
        assert QueInv(s, o) && QueAt(s, o, t);
        if ByPriority(s.obj, o) { SortedFrame(Pris(s), Pris(s1), Que(s, o)); }
        forall y: nat ensures QueAt(s1, o, y) { assert QueAt(s, o, y); }
      }
    } else {
      PlaceMoved(s, t, x, front);
      PlaceFacts(s, t, x, front);
    }
  }

  lemma RelockFacts(s: K, t: nat, locks: seq<nat>)
    requires WellFormed(s) && ReadyInv(s) && WaitInv(s) && t < |s.tsk|
    ensures var s1 := Relock(s, t, locks);
      && ReadyInv(s1) && WaitInv(s1) && Moved(s, s1, t, Tsk(s, t).(locks := locks))
      && Kept(s, s1, |s.tsk|)
  {
    var x := Tsk(s, t).(locks := locks);
    if EffPri(s.obj, x.bpri, locks) == Pri(s, t) { SetQueues(s, t, x); } else { ReplaceFacts(s, t, x, true); }
    MovedKeptAll(s, Relock(s, t, locks), t, x);
  }

  lemma AcquireCore(s: K, t: nat, m: nat)
    requires Core(s, None, None) && IsRunnable(s, t) && IsMtx(s.obj, m) && Own(s, m) == None
    requires IsCeil(s.obj, m) ==> Ceiling(s.obj, m) <= Tsk(s, t).bpri
    ensures Core(Acquire(s, t, m), None, None) && Kept(s, Acquire(s, t, m), |s.tsk|)
  {
    var x := Tsk(s, t).(locks := Tsk(s, t).locks + [m]);
    var s0 := SetOwn(s, m, Some(t));
    var s1 := Acquire(s, t, m);
    forall y: nat ensures PriOk(s0, y) && TaskOk(Tsk(s0, y)) { assert PriOk(s, y) && TaskOk(Tsk(s, y)); }
    forall o: nat ensures ObjOk(s0, o) { assert ObjOk(s, o); }
    OwnQueues(s, m, Some(t));
    RelockFacts(s0, t, x.locks);
    MovedWell(s0, s1, t, x) by { assert PriOk(s, t) && TaskOk(Tsk(s, t)); }
    assert Acquired(s, s1, t, m);
    AcquireKeepsLocks(s, s1, t, m);
    AcquireKeepsWaits(s, s1, t, m);
    forall y: nat ensures KeptAt(s, s1, y) { assert y != |s.tsk| ==> KeptAt(s0, s1, y); }
  }

  /** `s1` is `s` after task `t` has taken the free mutex `m`. */
  ghost predicate Acquired(s: K, s1: K, t: nat, m: nat) {
    && IsRunnable(s, t) && m < |s.own| && |s1.tsk| == |s.tsk| && s1.obj == s.obj
    && IsMtx(s.obj, m) && Own(s, m) == None
    && Tsk(s1, t) == Tsk(s, t).(locks := Tsk(s, t).locks + [m])
    && (forall y: nat :: y != t ==> Tsk(s1, y) == Tsk(s, y))
    && s1.own == s.own[m := Some(t)] && s1.cnt == s.cnt
  }

  lemma AcquireKeepsLocks(s: K, s1: K, t: nat, m: nat)
    requires LockInv(s, None, None) && CeilInv(s, None) && Acquired(s, s1, t, m)
    requires IsCeil(s.obj, m) ==> Ceiling(s.obj, m) <= Tsk(s, t).bpri
    ensures LockInv(s1, None, None) && CeilInv(s1, None)
  {
    var x := Tsk(s1, t);
    assert LockAt(s, t, m, None) && LocksAt(s, t, None);
    AppendFacts(Tsk(s, t).locks, m);
    forall y: nat, o: nat ensures LockAt(s1, y, o, None) { assert LockAt(s, y, o, None) && LockAt(s, y, m, None); }
    forall o: nat ensures OwnAt(s1, o, None) { assert OwnAt(s, o, None); }
    forall y: nat ensures LocksAt(s1, y, None) { assert LocksAt(s, y, None); }
    forall y: nat ensures CeilFits(s1.obj, Tsk(s1, y)) {
      assert CeilFits(s.obj, Tsk(s, y));
      if y == t {
        forall o: nat ensures CeilFitsAt(s.obj, x, o) { assert CeilFitsAt(s.obj, Tsk(s, t), o); }
      }
    }
  }

  lemma AcquireKeepsWaits(s: K, s1: K, t: nat, m: nat)
    requires CondInv(s) && WaitInv(s) && WaitInv(s1) && Acquired(s, s1, t, m)
    ensures CondInv(s1)
  {
    forall o: nat ensures CondAt(s1, o) {
      assert CondAt(s, o) && QueInv(s, o) && QueInv(s1, o);
      forall y: nat | y in Que(s1, o) ensures MayWait(s1, y, o) { assert QueAt(s1, o, y) && QueAt(s, o, y); }
    }
  }

  lemma OwnQueues(s: K, m: nat, x: Option<nat>)
    requires ReadyInv(s) && WaitInv(s)
    ensures ReadyInv(SetOwn(s, m, x)) && WaitInv(SetOwn(s, m, x))
  {
    var s1 := SetOwn(s, m, x);
    assert Pris(s1) == Pris(s);
    forall y: nat ensures ReadyAt(s1, y) { assert ReadyAt(s, y); }
    forall o: nat ensures QueInv(s1, o) {
      assert QueInv(s, o);
      forall y: nat ensures QueAt(s1, o, y) { assert QueAt(s, o, y); }
    }
  }

  /** The owner lets go of one of its mutexes, which is then without an owner that knows of it. */
  lemma DropCore(s: K, t: nat, m: nat)
    requires Core(s, None, None) && m in Tsk(s, t).locks
    ensures var s1 := Relock(s, t, Remove(Tsk(s, t).locks, m));
      && Core(s1, None, Some(m)) && Kept(s, s1, |s.tsk|) && Own(s1, m) == Some(t) && !Tsk(s1, t).stat.Dormant?
      && m !in Tsk(s1, t).locks
  {
    var locks := Tsk(s, t).locks;
    var x := Tsk(s, t).(locks := Remove(locks, m));
    var s1 := Relock(s, t, x.locks);
    assert LockAt(s, t, m, None) && LocksAt(s, t, None);
    RelockFacts(s, t, x.locks);
    DropKeeps(s, s1, t, m);
    FitsSelf(s, t, None, None);
    MovedWell(s, s1, t, x);
    MovedInPlace(s, s1, t, x);
  }

  /** A task that waits for what it waited for before. */
  lemma MovedInPlace(s: K, s1: K, t: nat, x: Task)
    requires CondInv(s) && WaitInv(s) && WaitInv(s1) && Moved(s, s1, t, x) && x.stat == Tsk(s, t).stat
    ensures CondInv(s1)
  {
    forall o: nat ensures CondAt(s1, o) {
      assert CondAt(s, o) && QueInv(s, o) && QueInv(s1, o);
      forall y: nat | y in Que(s1, o) ensures MayWait(s1, y, o) { assert QueAt(s1, o, y) && QueAt(s, o, y); }
    }
  }

  lemma DropKeeps(s: K, s1: K, t: nat, m: nat)
    requires LockInv(s, None, None) && CeilInv(s, None) && m in Tsk(s, t).locks
    requires Moved(s, s1, t, Tsk(s, t).(locks := Remove(Tsk(s, t).locks, m)))
    ensures LockInv(s1, None, Some(m)) && CeilInv(s1, None) && m !in Tsk(s1, t).locks
  {
    var x := Tsk(s1, t);
    assert LockAt(s, t, m, None) && LocksAt(s, t, None);
    RemoveFacts(Tsk(s, t).locks, m);
    forall y: nat, o: nat ensures LockAt(s1, y, o, Some(m)) { assert LockAt(s, y, o, None); }
    forall o: nat ensures OwnAt(s1, o, Some(m)) { assert OwnAt(s, o, None); }
    forall y: nat ensures LocksAt(s1, y, None) { assert LocksAt(s, y, None); }
    forall y: nat ensures CeilFits(s1.obj, Tsk(s1, y)) {
      assert CeilFits(s.obj, Tsk(s, y));
      if y == t {
        forall o: nat ensures CeilFitsAt(s.obj, x, o) { assert CeilFitsAt(s.obj, Tsk(s, t), o); }
      }
    }
  }

  /** A mutex without an owner that knows of it goes to the head of its queue, or to nobody. */
  lemma ReleaseCore(s: K, m: nat, ending: Option<nat>)
    requires Core(s, ending, Some(m)) && IsMtx(s.obj, m) && (ending.Some? ==> Tsk(s, ending.value).stat.Dormant?)
    ensures var s1 := Release(s, m);
      && Core(s1, ending, None) && Kept(s, s1, |s.tsk|)
      && (forall y: nat :: y !in Que(s, m) ==> Tsk(s1, y) == Tsk(s, y))
      && (forall y: nat :: Tsk(s1, y).actque == Tsk(s, y).actque)
  {
    if Que(s, m) == [] { ReleaseNone(s, m, ending); } else { ReleaseNext(s, m, ending); }
  }

  lemma ReleaseNone(s: K, m: nat, ending: Option<nat>)
    requires Core(s, ending, Some(m)) && IsMtx(s.obj, m) && Que(s, m) == []
    ensures Core(Release(s, m), ending, None) && Kept(s, Release(s, m), |s.tsk|) && Release(s, m).tsk == s.tsk
  {
    var s1 := Release(s, m);
    OwnQueues(s, m, None);
    forall y: nat ensures PriOk(s1, y) && TaskOk(Tsk(s1, y)) && KeptAt(s, s1, y) { assert PriOk(s, y) && TaskOk(Tsk(s, y)); }
    forall o: nat ensures ObjOk(s1, o) { assert ObjOk(s, o); }
    forall y: nat, o: nat ensures LockAt(s1, y, o, None) { assert LockAt(s, y, o, Some(m)); }
    forall o: nat ensures OwnAt(s1, o, None) { assert OwnAt(s, o, Some(m)); }
    forall y: nat ensures LocksAt(s1, y, ending) { assert LocksAt(s, y, ending); }
    forall y: nat | Some(y) != ending ensures CeilFits(s1.obj, Tsk(s1, y)) { assert CeilFits(s.obj, Tsk(s, y)); }
    forall o: nat ensures CondAt(s1, o) {
      assert CondAt(s, o);
      forall y: nat | y in Que(s1, o) ensures MayWait(s1, y, o) { assert MayWait(s, y, o); }
    }
  }

  lemma ReleaseNext(s: K, m: nat, ending: Option<nat>)
    requires Core(s, ending, Some(m)) && IsMtx(s.obj, m) && Que(s, m) != []
    requires ending.Some? ==> Tsk(s, ending.value).stat.Dormant?
    ensures var s1 := Release(s, m);
      && Core(s1, ending, None) && Kept(s, s1, |s.tsk|)
      && (forall y: nat :: y !in Que(s, m) ==> Tsk(s1, y) == Tsk(s, y))
      && (forall y: nat :: Tsk(s1, y).actque == Tsk(s, y).actque)
  {
    var w := Que(s, m)[0];
    var s1, s2 := Place(s, w, Heir(s, w, m), false), Release(s, m);
    assert s2 == SetOwn(s1, m, Some(w));
    HeirPlaced(s, m, ending);
    OwnKeeps(s1, m, Some(w));
    forall y: nat ensures KeptAt(s, s2, y) { assert KeptAt(s, s1, y); }
    HandKeepsLocks(s, s2, w, m, ending);
    HandKeepsWaits(s, s2, w, m);
  }

  /** The first task that waits for mutex `m`, as its owner. */
  function Heir(s: K, w: nat, m: nat): Task {
    Released(Tsk(s, w), Ok).(locks := Tsk(s, w).locks + [m])
  }

  lemma HeirPlaced(s: K, m: nat, ending: Option<nat>)
    requires Core(s, ending, Some(m)) && Que(s, m) != [] && (ending.Some? ==> Tsk(s, ending.value).stat.Dormant?)
    ensures var w := Que(s, m)[0];
      var s1 := Place(s, w, Heir(s, w, m), false);
      && Moved(s, s1, w, Heir(s, w, m)) && Kept(s, s1, |s.tsk|) && WellFormed(s1) && TaskInv(s1) && ReadyInv(s1) && WaitInv(s1)
      && WaitsOn(s, w, m) && ending != Some(w) && Que(s1, m) == Que(s, m)[1..]
  {
    var w := Que(s, m)[0];
    var x := Heir(s, w, m);
    assert QueInv(s, m) && QueAt(s, m, w);
    PlaceMoved(s, w, x, false);
    PlaceFacts(s, w, x, false);
    HeadLeaves(s, m, x);
    MovedKeptAll(s, Place(s, w, x, false), w, x);
    FitsSelf(s, w, ending, Some(m));
    MovedWell(s, Place(s, w, x, false), w, x);
  }

  lemma OwnKeeps(s: K, m: nat, x: Option<nat>)
    requires WellFormed(s) && TaskInv(s) && ReadyInv(s) && WaitInv(s) && (x.Some? ==> x.value < |s.tsk|)
    ensures var s1 := SetOwn(s, m, x); WellFormed(s1) && TaskInv(s1) && ReadyInv(s1) && WaitInv(s1)
  {
    var s1 := SetOwn(s, m, x);
    OwnQueues(s, m, x);
    forall y: nat ensures PriOk(s1, y) && TaskOk(Tsk(s1, y)) { assert PriOk(s, y) && TaskOk(Tsk(s, y)); }
    forall o: nat ensures ObjOk(s1, o) { assert ObjOk(s, o); }
  }

  /** `s2` is `s` after the hand-over of mutex `m` to task `w`. */
  ghost predicate Handed(s: K, s2: K, w: nat, m: nat) {
    && WaitsOn(s, w, m) && |s2.own| == |s.own| && m < |s.own| && |s2.tsk| == |s.tsk| && s2.obj == s.obj
    && Tsk(s2, w) == Released(Tsk(s, w), Ok).(locks := Tsk(s, w).locks + [m])
    && (forall y: nat :: y != w ==> Tsk(s2, y) == Tsk(s, y))
    && s2.own == s.own[m := Some(w)] && s2.cnt == s.cnt
  }

  lemma HandKeepsLocks(s: K, s2: K, w: nat, m: nat, ending: Option<nat>)
    requires LockInv(s, ending, Some(m)) && CeilInv(s, ending) && Handed(s, s2, w, m) && IsMtx(s.obj, m)
    requires ending != Some(w)
    ensures LockInv(s2, ending, None) && CeilInv(s2, ending)
  {
    var x := Tsk(s2, w);
    assert LockAt(s, w, m, Some(m)) && LocksAt(s, w, ending);
    AppendFacts(Tsk(s, w).locks, m);
    forall y: nat, o: nat ensures LockAt(s2, y, o, None) {
      assert LockAt(s, y, o, Some(m)) && LockAt(s, y, m, Some(m));
    }
    forall o: nat ensures OwnAt(s2, o, None) { assert OwnAt(s, o, Some(m)); }
    forall y: nat ensures LocksAt(s2, y, ending) { assert LocksAt(s, y, ending); }
    forall y: nat | Some(y) != ending ensures CeilFits(s2.obj, Tsk(s2, y)) {
      assert CeilFits(s.obj, Tsk(s, y));
      if y == w {
        forall o: nat ensures CeilFitsAt(s.obj, x, o) { assert CeilFitsAt(s.obj, Tsk(s, w), o); }
      }
    }
  }

  lemma HandKeepsWaits(s: K, s2: K, w: nat, m: nat)
    requires CondInv(s) && WaitInv(s) && WaitInv(s2) && Handed(s, s2, w, m) && IsMtx(s.obj, m)
    ensures CondInv(s2)
  {
    forall o: nat ensures CondAt(s2, o) {
      assert CondAt(s, o) && QueInv(s, o) && QueInv(s2, o);
      forall y: nat | y in Que(s2, o) ensures MayWait(s2, y, o) { assert QueAt(s2, o, y) && QueAt(s, o, y); }
    }
  }

  /** Giving up all locks ends, and ends with none held. */
  lemma {:induction false} ReleaseAllCore(s: K, t: nat, locks: seq<nat>)
    requires Core(s, Some(t), None) && t < |s.tsk| && Tsk(s, t).stat.Dormant? && Tsk(s, t).locks == locks
    ensures var s1 := ReleaseAll(s, t, locks);
      && Core(s1, None, None) && Kept(s, s1, |s.tsk|) && Tsk(s1, t) == Tsk(s, t).(locks := [])
    decreases |locks|
  {
    if locks == [] {
      forall y: nat ensures LocksAt(s, y, None) { assert LocksAt(s, y, Some(t)); }
      forall y: nat ensures CeilFits(s.obj, Tsk(s, y)) {
        if y == t {
          forall o: nat ensures CeilFitsAt(s.obj, Tsk(s, t), o) {}
        }
      }
      forall y: nat ensures KeptAt(s, s, y) {}
    } else {
      var n := |locks| - 1;
      var m := locks[n];
      var x := Tsk(s, t).(locks := locks[..n]);
      var s1 := SetTsk(s, t, x);
      ShedCore(s, t);
      assert LockAt(s, t, m, None) && OwnAt(s, m, None) && QueInv(s1, m) && QueAt(s1, m, t);
      ReleaseCore(s1, m, Some(t));
      var s2 := Release(s1, m);
      KeptTrans(s, s1, s2, |s.tsk|);
      ReleaseAllCore(s2, t, locks[..n]);
      KeptTrans(s, s2, ReleaseAll(s, t, locks), |s.tsk|);
    }
  }

  /** An ended task drops the mutex it locked last. */
  lemma ShedCore(s: K, t: nat)
    requires Core(s, Some(t), None) && t < |s.tsk| && Tsk(s, t).stat.Dormant? && Tsk(s, t).locks != []
    ensures var n := |Tsk(s, t).locks| - 1;
      var s1 := SetTsk(s, t, Tsk(s, t).(locks := Tsk(s, t).locks[..n]));
      && Core(s1, Some(t), Some(Tsk(s, t).locks[n])) && Kept(s, s1, |s.tsk|)
  {
    var locks := Tsk(s, t).locks;
    var n := |locks| - 1;
    var x := Tsk(s, t).(locks := locks[..n]);
    var s1 := SetTsk(s, t, x);
    assert LocksAt(s, t, Some(t)) && PriOk(s, t) && TaskOk(Tsk(s, t));
    assert forall i :: 0 <= i < n ==> Apart(locks, i, n) && x.locks[i] == locks[i];
    assert NoDup(x.locks) by {
      forall i, j | 0 <= i < j < n ensures Apart(x.locks, i, j) { assert Apart(locks, i, j); }
    }
    assert forall o :: o in locks <==> o in x.locks || o == locks[n];
    EndedQueues(s, t, x);
    MovedWell(s, s1, t, x);
    MovedKeptAll(s, s1, t, x);
    var m := locks[n];
    forall y: nat, o: nat ensures LockAt(s1, y, o, Some(m)) { assert LockAt(s, y, o, None) && LockAt(s, t, m, None); }
    forall o: nat ensures OwnAt(s1, o, Some(m)) { assert OwnAt(s, o, None); }
    forall y: nat ensures LocksAt(s1, y, Some(t)) { assert LocksAt(s, y, Some(t)); }
    forall y: nat | y != t ensures CeilFits(s1.obj, Tsk(s1, y)) { assert CeilFits(s.obj, Tsk(s, y)); }
    MovedCond(s, s1, t, x);
  }

  /** A dormant task is in no queue, so its record may change freely. */
  lemma EndedQueues(s: K, t: nat, x: Task)
    requires ReadyInv(s) && WaitInv(s) && t < |s.tsk| && Tsk(s, t).stat.Dormant? && x.stat.Dormant?
    ensures ReadyInv(SetTsk(s, t, x)) && WaitInv(SetTsk(s, t, x))
  {
    var s1 := SetTsk(s, t, x);
    assert forall y: nat :: y != t ==> Tsk(s1, y) == Tsk(s, y) && At(Pris(s1), y) == At(Pris(s), y);
    assert ReadyAt(s, t);
    SortedFrame(Pris(s), Pris(s1), s.ready);
    forall y: nat ensures ReadyAt(s1, y) { assert ReadyAt(s, y); }
    forall o: nat ensures QueInv(s1, o) {
      assert QueInv(s, o) && QueAt(s, o, t);
      if ByPriority(s.obj, o) { SortedFrame(Pris(s), Pris(s1), Que(s, o)); }
      forall y: nat ensures QueAt(s1, o, y) { assert QueAt(s, o, y); }
    }
  }

  /** Ending a task, and starting it again if an activation is queued, leaves it without locks. */
  lemma TerminateCore(s: K, t: nat)
    requires Core(s, None, None) && t < |s.tsk|
    ensures var s1 := Terminate(s, t);
      && Core(s1, None, None) && Kept(s, s1, t)
      && !Tsk(s1, t).raster && Tsk(s1, t).enater && Tsk(s1, t).locks == [] && !IsWaiting(s1, t)
  {
    FitsSelf(s, t, None, None);
    var x := Ended(Tsk(s, t));
    assert LocksAt(s, t, None);
    CoreEnding(s, t);
    PlaceCore(s, t, x, false, Some(t), None);
    var s1 := Place(s, t, x, false);
    MovedKept(s, s1, t, x);
    ReleaseAllCore(s1, t, x.locks);
    var s2 := ReleaseAll(s1, t, x.locks);
    ForgetKept(s, s1, s2, t);
    if Tsk(s2, t).actque {
      var x2 := Tsk(s2, t).(actque := false);
      var s3 := SetTsk(s2, t, x2);
      FitsSelf(s2, t, None, None);
      forall o: nat ensures CeilFitsAt(s2.obj, x2, o) {}
      SetCore(s2, t, x2, None, None);
      MovedKeptAll(s2, s3, t, x2);
      WakeCore(s3, t, None, None);
      ForgetKept(s, s2, s3, t);
      ForgetKept(s, s3, Wake(s3, t), t);
    }
  }

  lemma CoreEnding(s: K, t: nat)
    requires Core(s, None, None)
    ensures Core(s, Some(t), None)
  {
    forall y: nat ensures LocksAt(s, y, Some(t)) { assert LocksAt(s, y, None); }
  }

  lemma ForgetKept(s: K, s1: K, s2: K, t: nat)
    requires Kept(s, s1, t) && Kept(s1, s2, |s1.tsk|) && t < |s.tsk|
    ensures Kept(s, s2, t)
  {
    forall y: nat | y != t ensures KeptAt(s, s2, y) {
      assert KeptAt(s, s1, y);
      assert y != |s1.tsk| ==> KeptAt(s1, s2, y);
    }
  }
}
