/** What a user of the kernel may rely on in every state of every run. */
module KernelTheorems {
  import opened PriorityList
  import opened KernelSpec
  import opened KernelInv
  import opened KernelOps
  import opened KernelRuns

  /** The current priority is the best of the base priority and the ceilings of the locked mutexes, and the
      base priority is never above a ceiling of a mutex that the task has locked or waits for. */
  lemma {:induction false} EffectivePriority(s: K, es: seq<Step>, t: nat)
    requires Initial(s)
    ensures var k := Run(s, es);
      var x := Tsk(k, t);
      && Pri(k, t) <= x.bpri && (forall o :: o in x.locks ==> Pri(k, t) <= Ceiling(k.obj, o))
      && (Pri(k, t) == x.bpri || exists o :: o in x.locks && IsCeil(k.obj, o) && Pri(k, t) == Ceiling(k.obj, o))
      && (forall o :: IsCeil(k.obj, o) && (o in x.locks || WaitsOn(k, t, o)) ==> Ceiling(k.obj, o) <= x.bpri)
  {
    var k := Run(s, es);
    AlwaysInv(s, es);
    EffPriIsMin(k.obj, Tsk(k, t).bpri, Tsk(k, t).locks);
    assert PriOk(k, t) && CeilFits(k.obj, Tsk(k, t));
    forall o: nat | IsCeil(k.obj, o) && (o in Tsk(k, t).locks || WaitsOn(k, t, o)) ensures Ceiling(k.obj, o) <= Tsk(k, t).bpri {
      assert CeilFitsAt(k.obj, Tsk(k, t), o);
    }
  }

  /** Outside interrupt handlers and with dispatching allowed, the running task is runnable and no runnable
      task has a better priority; nobody runs only if nobody can. */
  lemma {:induction false} BestTaskRuns(s: K, es: seq<Step>)
    requires Initial(s) && !Run(s, es).ctx && Dsp(Run(s, es))
    ensures var k := Run(s, es);
      match k.run
      case None => forall t: nat :: !IsRunnable(k, t)
      case Some(r) => IsRunnable(k, r) && forall t: nat :: IsRunnable(k, t) ==> Pri(k, r) <= Pri(k, t)
  {
    var k := Run(s, es);
    AlwaysInv(s, es);
    forall t: nat | IsRunnable(k, t) ensures k.run.Some? && Pri(k, k.run.value) <= Pri(k, t) {
      assert ReadyAt(k, t);
      var i :| 0 <= i < |k.ready| && k.ready[i] == t;
      assert k.ready[0] in k.ready && ReadyAt(k, k.ready[0]);
      if i > 0 { assert InOrder(Pris(k), k.ready, 0, i); }
    }
  }

  /** A waiting task is in exactly the queue of what it waits for, and it waits only for what is not to be
      had: a semaphore with count 0, a mutex that another task owns. */
  lemma {:induction false} WaitsWhereItSays(s: K, es: seq<Step>, t: nat, o: nat)
    requires Initial(s)
    ensures var k := Run(s, es);
      && (t in Que(k, o) <==> WaitsOn(k, t, o))
      && (WaitsOn(k, t, o) ==> o < |k.obj|)
      && (WaitsOn(k, t, o) ==> if IsSem(k.obj, o) then Cnt(k, o) == 0 else Own(k, o).Some? && Own(k, o) != Some(t))
      && (t in k.ready <==> IsRunnable(k, t))
  {
    var k := Run(s, es);
    AlwaysInv(s, es);
    assert QueInv(k, o) && QueAt(k, o, t) && CondAt(k, o) && ReadyAt(k, t);
  }

  /** A task's locks are exactly the mutexes it owns, and only mutexes have owners. */
  lemma {:induction false} LocksAreOwned(s: K, es: seq<Step>, t: nat, o: nat)
    requires Initial(s)
    ensures var k := Run(s, es);
      && (o in Tsk(k, t).locks <==> Own(k, o) == Some(t))
      && (Own(k, o).Some? ==> IsMtx(k.obj, o)) && NoDup(Tsk(k, t).locks)
      && (Tsk(k, t).stat.Dormant? ==> Tsk(k, t).locks == [])
  {
    AlwaysInv(s, es);
    var k := Run(s, es);
    assert LockAt(k, t, o, None) && OwnAt(k, o, None) && LocksAt(k, t, None);
  }

  /** A requested termination leaves its task runnable; once permitted, it waits for nothing but dispatching. */
  lemma {:induction false} PendingTermination(s: K, es: seq<Step>, t: nat)
    requires Initial(s) && Tsk(Run(s, es), t).raster
    ensures var k := Run(s, es);
      && IsRunnable(k, t)
      && (Tsk(k, t).enater ==> k.run == Some(t) && !Dsp(k))
  {
    AlwaysInv(s, es);
    assert TaskOk(Tsk(Run(s, es), t)) && RasterAt(Run(s, es), t);
  }

  /** The call that makes dispatching possible again carries out a termination that is requested and
      permitted: the task is dormant, or starting anew, without locks and at its start priority. */
  lemma {:induction false} OpeningTerminates(s: K, es: seq<Step>, c: Call)
    requires Initial(s)
    requires var k := Run(s, es);
      && !k.ctx && k.run.Some? && Tsk(k, k.run.value).raster && Tsk(k, k.run.value).enater
      && ((c == CEnaDsp && k.ipmopen) || (c == CChgIpm(true) && k.enadsp))
    ensures var k := Run(s, es);
      var x := Tsk(Next(k, Do(c)), k.run.value);
      && (x.stat.Dormant? || x.stat.Runnable?) && (x.stat.Runnable? <==> Tsk(k, k.run.value).actque)
      && x.locks == [] && x.bpri == x.ipri && !x.raster && x.enater && !x.wupque && !x.actque
  {
    var k := Run(s, es);
    AlwaysInv(s, es);
    var k1 := if c == CEnaDsp then k.(enadsp := true) else k.(ipmopen := true);
    SameCore(k, k1);
    Terminated(k1, k.run.value);
  }

  lemma Terminated(s: K, t: nat)
    requires Core(s, None, None) && t < |s.tsk|
    ensures var x := Tsk(Terminate(s, t), t);
      && (x.stat.Dormant? || x.stat.Runnable?) && (x.stat.Runnable? <==> Tsk(s, t).actque)
      && x.locks == [] && x.bpri == x.ipri && !x.raster && x.enater && !x.wupque && !x.actque
  {
    FitsSelf(s, t, None, None);
    CoreEnding(s, t);
    PlaceCore(s, t, Ended(Tsk(s, t)), false, Some(t), None);
    var s1 := Place(s, t, Ended(Tsk(s, t)), false);
    ReleaseAllCore(s1, t, Tsk(s, t).locks);
    var s2 := ReleaseAll(s1, t, Tsk(s, t).locks);
    if Tsk(s2, t).actque {
      PlaceMoved(SetTsk(s2, t, Tsk(s2, t).(actque := false)), t, Tsk(s2, t).(actque := false, stat := Runnable), false);
    }
  }

  /** An unlocked mutex goes to the task that has waited at the head of its queue, which stops waiting with
      result Ok, or to nobody. */
  lemma {:induction false} UnlockHandsOver(s: K, es: seq<Step>, m: nat)
    requires Initial(s) && !Run(s, es).ctx && Run(s, es).run.Some? && UnlMtx(Run(s, es), m).1 == Ok
    ensures var k := Run(s, es);
      var k1 := UnlMtx(k, m).0;
      && m !in Tsk(k1, Self(k)).locks
      && (if Que(k, m) == [] then Own(k1, m) == None
          else
            var w := Que(k, m)[0];
            && Own(k1, m) == Some(w) && !IsWaiting(k1, w) && Tsk(k1, w).winfo == Result(Ok)
            && Que(k1, m) == Que(k, m)[1..])
  {
    var k := Run(s, es);
    AlwaysInv(s, es);
    var t := Self(k);
    var k1 := Relock(k, t, Remove(Tsk(k, t).locks, m));
    DropCore(k, t, m);
    assert ReadyAt(k, t);
    SameQueue(k, t, Remove(Tsk(k, t).locks, m), m);
    if Que(k, m) != [] {
      var w := Que(k, m)[0];
      assert w != t by { assert QueInv(k, m) && QueAt(k, m, w); }
      HeirServed(k1, m);
    }
    SameTasks(Release(k1, m), m);
  }

  /** The head of the queue of a released mutex. */
  lemma HeirServed(s: K, m: nat)
    requires WellFormed(s) && WaitInv(s) && Que(s, m) != [] && m < |s.own|
    ensures var w, s1 := Que(s, m)[0], Release(s, m);
      && Own(s1, m) == Some(w) && !IsWaiting(s1, w) && Tsk(s1, w).winfo == Result(Ok) && Que(s1, m) == Que(s, m)[1..]
      && forall y: nat :: y != w ==> Tsk(s1, y) == Tsk(s, y)
  {
    var w := Que(s, m)[0];
    var x := Released(Tsk(s, w), Ok).(locks := Tsk(s, w).locks + [m]);
    assert QueInv(s, m) && QueAt(s, m, w);
    PlaceMoved(s, w, x, false);
    HeadLeaves(s, m, x);
  }

  /** A runnable task that gets other locks moves in no wait queue. */
  lemma SameQueue(s: K, t: nat, locks: seq<nat>, m: nat)
    requires IsRunnable(s, t)
    ensures Que(Relock(s, t, locks), m) == Que(s, m)
    ensures forall y: nat :: y != t ==> Tsk(Relock(s, t, locks), y) == Tsk(s, y)
  {
    var x := Tsk(s, t).(locks := locks);
    PlaceMoved(s, t, x, true);
    OtherQueue(s, t, m);
    JoinQueIs(SetTsk(Leave(s, t), t, x), t, true, m);
  }

  /** A reinitialized mutex has no owner and nobody waiting. */
  lemma {:induction false} ReinitializedMutex(s: K, es: seq<Step>, m: nat)
    requires Initial(s) && IniMtx(Run(s, es), m).1 == Ok
    ensures var k1 := IniMtx(Run(s, es), m).0;
      Own(k1, m) == None && Que(k1, m) == [] && forall t: nat :: m !in Tsk(k1, t).locks && !WaitsOn(k1, t, m)
  {
    AlwaysInv(s, es);
    Reinitialized(Run(s, es), m);
  }

  lemma Reinitialized(k: K, m: nat)
    requires Inv(k) && IniMtx(k, m).1 == Ok
    ensures var k1 := IniMtx(k, m).0;
      Own(k1, m) == None && Que(k1, m) == [] && forall t: nat :: m !in Tsk(k1, t).locks && !WaitsOn(k1, t, m)
  {
    UnwaitAllCore(k, m, Que(k, m), EDlt);
    var s1 := UnwaitAll(k, Que(k, m), EDlt);
    if Own(s1, m).Some? {
      Disowned(s1, Own(s1, m).value, m);
      SameTasks(SetOwn(Relock(s1, Own(s1, m).value, Remove(Tsk(s1, Own(s1, m).value).locks, m)), m, None), m);
    } else {
      NobodyAtAll(s1, m);
      SameTasks(s1, m);
    }
  }

  lemma Disowned(s1: K, h: nat, m: nat)
    requires Core(s1, None, None) && Own(s1, m) == Some(h) && Que(s1, m) == []
    ensures var s3 := SetOwn(Relock(s1, h, Remove(Tsk(s1, h).locks, m)), m, None);
      Own(s3, m) == None && Que(s3, m) == [] && forall t: nat :: m !in Tsk(s3, t).locks && !WaitsOn(s3, t, m)
  {
    assert OwnAt(s1, m, None);
    DisownCore(s1, h, m);
    RelockFacts(s1, h, Remove(Tsk(s1, h).locks, m));
    var s2 := Relock(s1, h, Remove(Tsk(s1, h).locks, m));
    QueueStays(s1, s2, m);
    NobodyAtAll(SetOwn(s2, m, None), m);
  }

  /** A dispatch changes no task, queue or owner. */
  lemma SameTasks(s: K, m: nat)
    ensures Own(Dispatch(s), m) == Own(s, m) && Que(Dispatch(s), m) == Que(s, m)
    ensures forall t: nat :: Tsk(Dispatch(s), t) == Tsk(s, t) && (WaitsOn(Dispatch(s), t, m) <==> WaitsOn(s, t, m))
  {
  }

  lemma NobodyAtAll(s: K, m: nat)
    requires Core(s, None, None) && Own(s, m) == None && Que(s, m) == []
    ensures forall t: nat :: m !in Tsk(s, t).locks && !WaitsOn(s, t, m)
  {
    assert QueInv(s, m);
    forall t: nat ensures m !in Tsk(s, t).locks && !WaitsOn(s, t, m) { assert LockAt(s, t, m, None) && QueAt(s, m, t); }
  }

  // ---------- order among equals ----------

  lemma BeforeAfterRemove<T>(q: seq<T>, t: T, a: T, b: T)
    requires Before(q, a, b) && a != t && b != t
    ensures Before(Remove(q, t), a, b)
  {
    var k := IndexOf(q, t);
    var r := Remove(q, t);
    var i, j :| 0 <= i < j < |q| && q[i] == a && q[j] == b;
    if k < |q| {
      var i', j' := if i < k then i else i - 1, if j < k then j else j - 1;
      assert r[i'] == a && r[j'] == b;
    }
  }

  lemma BeforeAfterInsert(pri: seq<nat>, q: seq<nat>, t: nat, front: bool, a: nat, b: nat)
    requires Before(q, a, b)
    ensures Before(Insert(pri, q, t, front), a, b)
  {
    var k := Slot(pri, q, At(pri, t), front);
    var r := Insert(pri, q, t, front);
    Spliced(q, t, k);
    var i, j :| 0 <= i < j < |q| && q[i] == a && q[j] == b;
    var i', j' := if i < k then i else i + 1, if j < k then j else j + 1;
    assert r[i'] == a && r[j'] == b;
  }

  /** When a task moves, all others keep their order among themselves, in the precedence list and in every
      wait queue. */
  lemma OthersKeepOrder(s: K, t: nat, x: Task, front: bool, a: nat, b: nat, o: nat)
    requires t < |s.tsk| && a != t && b != t
    ensures Before(s.ready, a, b) ==> Before(Place(s, t, x, front).ready, a, b)
    ensures Before(Que(s, o), a, b) ==> Before(Que(Place(s, t, x, front), o), a, b)
  {
    if Before(s.ready, a, b) { OthersKeepPrecedence(s, t, x, front, a, b); }
    if Before(Que(s, o), a, b) {
      LeaversKeepQueue(s, t, o, a, b);
      var s2 := SetTsk(Leave(s, t), t, x);
      assert Que(s2, o) == Que(Leave(s, t), o);
      JoinersKeepQueue(s2, t, front, o, a, b);
    }
  }

  lemma OthersKeepPrecedence(s: K, t: nat, x: Task, front: bool, a: nat, b: nat)
    requires Before(s.ready, a, b) && t < |s.tsk| && a != t && b != t
    ensures Before(Place(s, t, x, front).ready, a, b)
  {
    LeaversKeepPrecedence(s, t, a, b);
    var s1 := Leave(s, t);
    var s2 := SetTsk(s1, t, x);
    assert s2.ready == s1.ready;
    JoinersKeepPrecedence(s2, t, front, a, b);
  }

  lemma LeaversKeepPrecedence(s: K, t: nat, a: nat, b: nat)
    requires Before(s.ready, a, b) && a != t && b != t
    ensures Before(Leave(s, t).ready, a, b)
  {
    BeforeAfterRemove(s.ready, t, a, b);
  }

  lemma JoinersKeepPrecedence(s: K, t: nat, front: bool, a: nat, b: nat)
    requires Before(s.ready, a, b)
    ensures Before(Join(s, t, front).ready, a, b)
  {
    BeforeAfterInsert(Pris(s), s.ready, t, front, a, b);
  }

  lemma LeaversKeepQueue(s: K, t: nat, o: nat, a: nat, b: nat)
    requires Before(Que(s, o), a, b) && a != t && b != t
    ensures Before(Que(Leave(s, t), o), a, b)
  {
    if WaitsOn(s, t, o) {
      BeforeAfterRemove(Que(s, o), t, a, b);
    } else {
      OtherQueue(s, t, o);
    }
  }

  lemma JoinersKeepQueue(s: K, t: nat, front: bool, o: nat, a: nat, b: nat)
    requires Before(Que(s, o), a, b)
    ensures Before(Que(Join(s, t, front), o), a, b)
  {
    JoinQueIs(s, t, front, o);
    BeforeAfterInsert(Pris(s), Que(s, o), t, false, a, b);
    BeforeAfterAppend(Que(s, o), t, a, b);
  }

  lemma BeforeAfterAppend<T>(q: seq<T>, t: T, a: T, b: T)
    requires Before(q, a, b)
    ensures Before(q + [t], a, b)
  {
    var i, j :| 0 <= i < j < |q| && q[i] == a && q[j] == b;
    assert (q + [t])[i] == a && (q + [t])[j] == b;
  }

  /** A task that becomes runnable queues behind those of its priority: first come, first served. */
  lemma WokenGoesBehind(s: K, t: nat, y: nat)
    requires Core(s, None, None) && t < |s.tsk| && !IsRunnable(s, t) && IsRunnable(s, y)
    ensures var s1 := Wake(s, t);
      (Before(s1.ready, y, t) <==> Pri(s1, y) <= Pri(s1, t)) && (Before(s1.ready, t, y) <==> Pri(s1, t) < Pri(s1, y))
  {
    var x := Tsk(s, t).(stat := Runnable);
    var s1 := Wake(s, t);
    PlaceMoved(s, t, x, false);
    LeaveFacts(s, t);
    LeaveReady(s, t);
    var s2 := SetTsk(Leave(s, t), t, x);
    SetFacts(Leave(s, t), t, x);
    InsertFacts(Pris(s2), s2.ready, t, false);
    assert ReadyAt(s, y) && Pris(s1) == Pris(s2);
    BeforeTotal(s1.ready, y, t);
    if Before(s1.ready, y, t) { BeforeInsert(Pris(s2), s2.ready, t, false, y, t); }
    if Before(s1.ready, t, y) { BeforeInsert(Pris(s2), s2.ready, t, false, t, y); }
  }
}
