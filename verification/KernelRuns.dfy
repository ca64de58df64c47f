/** The invariant holds after every step of every run, and what follows from it. */
module KernelRuns {
  import opened PriorityList
  import opened KernelSpec
  import opened KernelInv
  import opened KernelOps

  // ---------- the running task ----------

  /** The invariant of tasks and queues does not look at who is running. */
  lemma SameCore(s: K, s1: K)
    requires Core(s, None, None)
    requires s1 == s.(run := s1.run, enadsp := s1.enadsp, ipmopen := s1.ipmopen, ctx := s1.ctx)
    requires s1.run.Some? ==> s1.run.value < |s.tsk|
    ensures Core(s1, None, None)
  {
    assert Pris(s1) == Pris(s);
    forall y: nat ensures PriOk(s1, y) && TaskOk(Tsk(s1, y)) && ReadyAt(s1, y) && LocksAt(s1, y, None) && CeilFits(s1.obj, Tsk(s1, y)) {
      assert PriOk(s, y) && TaskOk(Tsk(s, y)) && ReadyAt(s, y) && LocksAt(s, y, None) && CeilFits(s.obj, Tsk(s, y));
    }
    forall y: nat, o: nat ensures LockAt(s1, y, o, None) { assert LockAt(s, y, o, None); }
    forall o: nat ensures ObjOk(s1, o) && OwnAt(s1, o, None) && QueInv(s1, o) && CondAt(s1, o) {
      assert ObjOk(s, o) && OwnAt(s, o, None) && QueInv(s, o) && CondAt(s, o);
      forall y: nat ensures QueAt(s1, o, y) { assert QueAt(s, o, y); }
      forall y: nat | y in Que(s1, o) ensures MayWait(s1, y, o) { assert MayWait(s, y, o); }
    }
  }

  lemma DispatchInv(s: K)
    requires Core(s, None, None) && !s.ctx
    requires !Dsp(s) ==> s.run.Some? && IsRunnable(s, s.run.value)
    requires forall y: nat :: RasterAt(s, y)
    ensures Inv(Dispatch(s))
  {
    var s1 := Dispatch(s);
    if Dsp(s) && s.ready != [] {
      assert s.ready[0] in s.ready && ReadyAt(s, s.ready[0]);
    }
    SameCore(s, s1);
    forall y: nat ensures RasterAt(s1, y) { assert RasterAt(s, y); }
  }

  /** A step that leaves every task but `t` at least as ready as it was. */
  lemma StepInv(s: K, s1: K, t: nat)
    requires Inv(s) && Core(s1, None, None) && Kept(s, s1, t) && !s.ctx
    requires t < |s.tsk| ==> !(Tsk(s1, t).raster && Tsk(s1, t).enater) && (!Dsp(s) ==> s.run != Some(t))
    ensures Inv(Dispatch(s1))
  {
    forall y: nat ensures RasterAt(s1, y) {
      assert RasterAt(s, y);
      assert y != t ==> KeptAt(s, s1, y);
    }
    if !Dsp(s) { assert KeptAt(s, s1, s.run.value); }
    DispatchInv(s1);
  }

  lemma ReschedInv(s: K, s1: K)
    requires Inv(s) && Core(s1, None, None) && Kept(s, s1, |s.tsk|)
    ensures Inv(Resched(s1))
  {
    if s.ctx {
      forall y: nat ensures RasterAt(s1, y) {
        assert RasterAt(s, y);
        assert y != |s.tsk| ==> KeptAt(s, s1, y);
      }
      if s.run.Some? { assert KeptAt(s, s1, s.run.value); }
    } else {
      StepInv(s, s1, |s.tsk|);
    }
  }

  /** A change to one record that does not touch any queue. */
  lemma SetInv(s: K, t: nat, x: Task)
    requires Inv(s) && Fits(s, t, x, None) && SamePlace(s, t, x) && EffPri(s.obj, x.bpri, x.locks) == Pri(s, t)
    requires x.raster && x.enater ==> s.run == Some(t) && !Dsp(s)
    ensures Inv(SetTsk(s, t, x))
  {
    SetCore(s, t, x, None, None);
    var s1 := SetTsk(s, t, x);
    forall y: nat ensures RasterAt(s1, y) { assert RasterAt(s, y); }
  }

  /** `SetInv` for a record that keeps its state and its priorities. */
  lemma FlagInv(s: K, t: nat, x: Task)
    requires Inv(s) && t < |s.tsk| && TaskOk(x)
    requires x == Tsk(s, t).(actque := x.actque, wupque := x.wupque, raster := x.raster, enater := x.enater)
    requires x.raster && x.enater ==> s.run == Some(t) && !Dsp(s)
    ensures Inv(SetTsk(s, t, x))
  {
    FitsSelf(s, t, None, None);
    forall o: nat ensures CeilFitsAt(s.obj, x, o) { assert CeilFitsAt(s.obj, Tsk(s, t), o); }
    SetInv(s, t, x);
  }

  // ---------- tasks ----------

  lemma ActTskInv(s: K, t: nat)
    requires Inv(s)
    ensures Inv(ActTsk(s, t).0)
  {
    if t < |s.tsk| {
      assert TaskOk(Tsk(s, t)) && RasterAt(s, t);
      if Tsk(s, t).stat.Dormant? {
        WakeCore(s, t, None, None);
        ReschedInv(s, Wake(s, t));
      } else if !Tsk(s, t).noactque && !Tsk(s, t).actque {
        FlagInv(s, t, Tsk(s, t).(actque := true));
      }
    }
  }

  /** With a ceiling mutex locked, the current priority does not depend on the base priority. */
  lemma CeilingRules(obj: seq<Obj>, b: nat, b': nat, locks: seq<nat>)
    requires exists o :: o in locks && IsCeil(obj, o)
    requires forall o :: o in locks && IsCeil(obj, o) ==> Ceiling(obj, o) <= b && Ceiling(obj, o) <= b'
    ensures EffPri(obj, b, locks) == EffPri(obj, b', locks)
  {
    EffPriIsMin(obj, b, locks);
    EffPriIsMin(obj, b', locks);
    var h :| h in locks && IsCeil(obj, h);
    assert Ceiling(obj, h) <= b && Ceiling(obj, h) <= b';
  }

  lemma ChgPriInv(s: K, t: nat, tskpri: nat)
    requires Inv(s)
    ensures Inv(ChgPri(s, t, tskpri).0)
  {
    var x := Tsk(s, t);
    var p := if tskpri == 0 then x.ipri else tskpri - 1;
    if !s.ctx && t < |s.tsk| && tskpri <= TNUM_TPRI && !x.stat.Dormant? && !CeilingBars(s, t, p) {
      FitsSelf(s, t, None, None);
      assert RasterAt(s, t);
      var x' := x.(bpri := p);
      forall o: nat ensures CeilFitsAt(s.obj, x', o) {}
      if HoldsCeil(s, t) {
        assert forall o :: o in x.locks && IsCeil(s.obj, o) ==> CeilFitsAt(s.obj, x, o) && CeilFitsAt(s.obj, x', o);
        CeilingRules(s.obj, x.bpri, p, x.locks);
        SetInv(s, t, x');
      } else {
        var s1 := Replace(s, t, x', false);
        ReplaceFacts(s, t, x', false);
        MovedWell(s, s1, t, x');
        MovedLock(s, s1, t, x', None, None);
        MovedCond(s, s1, t, x');
        MovedKeptAll(s, s1, t, x');
        StepInv(s, s1, |s.tsk|);
      }
    }
  }

  lemma SleepInv(s: K, why: Reason, timed: bool)
    requires Inv(s) && !s.ctx && s.run.Some? && Dsp(s) && !Tsk(s, Self(s)).raster && (why == Delay ==> timed)
    requires why.On? ==>
      && MayWait(s, Self(s), why.obj)
      && (IsCeil(s.obj, why.obj) ==> Ceiling(s.obj, why.obj) <= Tsk(s, Self(s)).bpri)
    ensures Inv(Dispatch(Block(s, Self(s), why, timed)))
  {
    var t := Self(s);
    BlockCore(s, t, why, timed);
    var s1 := Block(s, t, why, timed);
    PlaceMoved(s, t, Tsk(s, t).(stat := Waiting(why, false), winfo := Timer(timed)), false);
    StepInv(s, s1, t);
  }

  lemma SlpTskInv(s: K, tmo: nat)
    requires Inv(s) && (s.ctx || s.run.Some?)
    ensures Inv(SlpTsk(s, tmo).0)
  {
    var t := Self(s);
    if !s.ctx && Dsp(s) && ValidTmo(tmo) && !Tsk(s, t).raster {
      assert TaskOk(Tsk(s, t));
      if Tsk(s, t).wupque { FlagInv(s, t, Tsk(s, t).(wupque := false)); }
      else if tmo != TMO_POL { SleepInv(s, Sleep, tmo != TMO_FEVR); }
    }
  }

  lemma DlyTskInv(s: K, dlytim: nat)
    requires Inv(s) && (s.ctx || s.run.Some?)
    ensures Inv(DlyTsk(s, dlytim).0)
  {
    if !s.ctx && Dsp(s) && dlytim <= TMAX_RELTIM && !Tsk(s, Self(s)).raster { SleepInv(s, Delay, true); }
  }

  lemma UnwaitInv(s: K, t: nat, er: ER)
    requires Inv(s) && IsWaiting(s, t)
    ensures Inv(Resched(Unwait(s, t, er)))
  {
    UnwaitCore(s, t, er, None, None);
    ReschedInv(s, Unwait(s, t, er));
  }

  lemma WupTskInv(s: K, t: nat)
    requires Inv(s)
    ensures Inv(WupTsk(s, t).0)
  {
    var x := Tsk(s, t);
    if t < |s.tsk| && !x.stat.Dormant? {
      assert TaskOk(x) && RasterAt(s, t);
      if x.stat.Waiting? && x.stat.why == Sleep { UnwaitInv(s, t, Ok); }
      else if !x.wupque { FlagInv(s, t, x.(wupque := true)); }
    }
  }

  lemma SusTskInv(s: K, t: nat)
    requires Inv(s)
    ensures Inv(SusTsk(s, t).0)
  {
    var x := Tsk(s, t);
    if SusTsk(s, t).1 == Ok {
      FitsSelf(s, t, None, None);
      if x.stat.Runnable? {
        var x' := x.(stat := Suspended);
        forall o: nat ensures CeilFitsAt(s.obj, x', o) { assert CeilFitsAt(s.obj, x, o); }
        PlaceCore(s, t, x', false, None, None);
        MovedKept(s, Place(s, t, x', false), t, x');
        StepInv(s, Place(s, t, x', false), t);
      } else {
        var x' := x.(stat := Waiting(x.stat.why, true));
        forall o: nat ensures CeilFitsAt(s.obj, x', o) { assert CeilFitsAt(s.obj, x, o); }
        SetInv(s, t, x');
      }
    }
  }

  lemma RsmTskInv(s: K, t: nat)
    requires Inv(s)
    ensures Inv(RsmTsk(s, t).0)
  {
    var x := Tsk(s, t);
    if RsmTsk(s, t).1 == Ok {
      FitsSelf(s, t, None, None);
      if x.stat.Suspended? {
        WakeCore(s, t, None, None);
        StepInv(s, Wake(s, t), |s.tsk|);
      } else {
        var x' := x.(stat := Waiting(x.stat.why, false));
        forall o: nat ensures CeilFitsAt(s.obj, x', o) { assert CeilFitsAt(s.obj, x, o); }
        SetInv(s, t, x');
      }
    }
  }

  // ---------- the end of tasks ----------

  /** Ending a task that may be ended: any but the running one, or, with dispatching allowed, that too. */
  lemma EndInv(s: K, t: nat)
    requires Core(s, None, None) && !s.ctx && t < |s.tsk|
    requires !Dsp(s) ==> s.run.Some? && IsRunnable(s, s.run.value) && s.run != Some(t)
    requires forall y: nat :: y != t ==> RasterAt(s, y)
    ensures Inv(Dispatch(Terminate(s, t)))
  {
    TerminateCore(s, t);
    var s1 := Terminate(s, t);
    forall y: nat ensures RasterAt(s1, y) { assert y != t ==> RasterAt(s, y) && KeptAt(s, s1, y); }
    if !Dsp(s) { assert KeptAt(s, s1, s.run.value); }
    DispatchInv(s1);
  }

  lemma ExtTskInv(s: K)
    requires Inv(s) && (s.ctx || s.run.Some?)
    ensures Inv(ExtTsk(s).0)
  {
    if !s.ctx {
      var s1 := s.(enadsp := true, ipmopen := true);
      SameCore(s, s1);
      forall y: nat | y != Self(s) ensures RasterAt(s1, y) { assert RasterAt(s, y); }
      EndInv(s1, Self(s));
    }
  }

  lemma TerTskInv(s: K, t: nat)
    requires Inv(s)
    ensures Inv(TerTsk(s, t).0)
  {
    if TerTsk(s, t).1 == Ok { EndInv(s, t); }
  }

  lemma RasTerInv(s: K, t: nat)
    requires Inv(s)
    ensures Inv(RasTer(s, t).0)
  {
    var x := Tsk(s, t);
    if RasTer(s, t).1 == Ok {
      if x.enater { EndInv(s, t); }
      else if x.stat.Runnable? { FlagInv(s, t, x.(raster := true)); }
      else {
        RecallInv(s, t, x.(stat := Runnable, raster := true, winfo := if x.stat.Waiting? then Result(ERaster) else x.winfo));
      }
    }
  }

  /** A task that is to end but must not yet is made to run. */
  lemma RecallInv(s: K, t: nat, x: Task)
    requires Inv(s) && !s.ctx && t < |s.tsk| && !Tsk(s, t).stat.Dormant? && !Tsk(s, t).enater && s.run != Some(t)
    requires x == Tsk(s, t).(stat := Runnable, raster := true, winfo := x.winfo)
    ensures Inv(Dispatch(Place(s, t, x, false)))
  {
    FitsSelf(s, t, None, None);
    forall o: nat ensures CeilFitsAt(s.obj, x, o) { assert CeilFitsAt(s.obj, Tsk(s, t), o); }
    PlaceCore(s, t, x, false, None, None);
    MovedKept(s, Place(s, t, x, false), t, x);
    StepInv(s, Place(s, t, x, false), t);
  }

  lemma DisTerInv(s: K)
    requires Inv(s) && (s.ctx || s.run.Some?)
    ensures Inv(DisTer(s).0)
  {
    if !s.ctx {
      assert TaskOk(Tsk(s, Self(s)));
      FlagInv(s, Self(s), Tsk(s, Self(s)).(enater := false));
    }
  }

  lemma EnaTerInv(s: K)
    requires Inv(s) && (s.ctx || s.run.Some?)
    ensures Inv(EnaTer(s).0)
  {
    var t := Self(s);
    if !s.ctx {
      assert TaskOk(Tsk(s, t));
      if Tsk(s, t).raster && Dsp(s) { EndInv(s, t); } else { FlagInv(s, t, Tsk(s, t).(enater := true)); }
    }
  }

  // ---------- dispatching ----------

  lemma RotRdqInv(s: K, tskpri: nat)
    requires Inv(s)
    ensures Inv(RotRdq(s, tskpri).0)
  {
    if RotRdq(s, tskpri).1 == Ok {
      var p := if tskpri == 0 then Tsk(s, Self(s)).bpri else tskpri - 1;
      var i := Slot(Pris(s), s.ready, p, true);
      if i < |s.ready| && At(Pris(s), s.ready[i]) == p {
        var t := s.ready[i];
        assert t in s.ready && ReadyAt(s, t);
        FitsSelf(s, t, None, None);
        PlaceCore(s, t, Tsk(s, t), false, None, None);
        MovedKeptAll(s, Rotate(s, p), t, Tsk(s, t));
      } else {
        forall y: nat ensures KeptAt(s, s, y) {}
      }
      ReschedInv(s, Rotate(s, p));
    }
  }

  lemma DisDspInv(s: K)
    requires Inv(s) && (s.ctx || s.run.Some?)
    ensures Inv(DisDsp(s).0)
  {
    if !s.ctx { ClosedInv(s, s.(enadsp := false)); }
  }

  /** Holding dispatching off freezes the running task. */
  lemma ClosedInv(s: K, s1: K)
    requires Inv(s) && s.run.Some? && !s.ctx && s1 == s.(enadsp := s1.enadsp, ipmopen := s1.ipmopen) && !Dsp(s1)
    ensures Inv(s1)
  {
    SameCore(s, s1);
    forall y: nat ensures RasterAt(s1, y) { assert RasterAt(s, y); }
  }

  lemma OpenedInv(s: K, s1: K)
    requires Inv(s) && s.run.Some? && !s.ctx && s1 == s.(enadsp := true, ipmopen := true)
    ensures Inv(Opened(s1))
  {
    SameCore(s, s1);
    var t := Self(s);
    forall y: nat | y != t ensures RasterAt(s1, y) { assert RasterAt(s, y); }
    if Tsk(s1, t).raster && Tsk(s1, t).enater { EndInv(s1, t); } else { DispatchInv(s1); }
  }

  lemma EnaDspInv(s: K)
    requires Inv(s) && (s.ctx || s.run.Some?)
    ensures Inv(EnaDsp(s).0)
  {
    if !s.ctx {
      if s.ipmopen { OpenedInv(s, s.(enadsp := true)); } else { ClosedInv(s, s.(enadsp := true)); }
    }
  }

  lemma ChgIpmInv(s: K, open: bool)
    requires Inv(s) && (s.ctx || s.run.Some?)
    ensures Inv(ChgIpm(s, open).0)
  {
    if !s.ctx {
      if open && s.enadsp { OpenedInv(s, s.(ipmopen := true)); } else { ClosedInv(s, s.(ipmopen := open)); }
    }
  }

  // ---------- mutexes ----------

  /** The head of the precedence list stays there when its priority does not get worse. */
  lemma HeadStays(s: K, t: nat, locks: seq<nat>)
    requires ReadyInv(s) && t < |s.tsk| && s.ready != [] && s.ready[0] == t
    requires EffPri(s.obj, Tsk(s, t).bpri, locks) <= Pri(s, t)
    ensures Relock(s, t, locks).ready == s.ready
  {
    var x := Tsk(s, t).(locks := locks);
    assert t in s.ready && ReadyAt(s, t);
    if EffPri(s.obj, x.bpri, locks) != Pri(s, t) {
      HeadGoesFirst(s, t, x);
    }
  }

  lemma HeadGoesFirst(s: K, t: nat, x: Task)
    requires ReadyInv(s) && t < |s.tsk| && s.ready != [] && s.ready[0] == t && x.stat.Runnable? && IsRunnable(s, t)
    requires EffPri(s.obj, x.bpri, x.locks) <= Pri(s, t)
    ensures Place(s, t, x, true).ready == s.ready
  {
    var s2 := s.(ready := s.ready[1..], tsk := s.tsk[t := x]);
    assert Place(s, t, x, true).ready == Insert(Pris(s2), s2.ready, t, true) by { HeadLeft(s, t, x); }
    assert At(Pris(s2), t) <= At(Pris(s), t);
    if |s.ready| > 1 { SecondIsBehind(s, s2, t); }
    assert Insert(Pris(s2), s2.ready, t, true) == [t] + s2.ready by { InsertFirst(Pris(s2), s2.ready, t); }
    assert [t] + s.ready[1..] == s.ready;
  }

  lemma HeadLeft(s: K, t: nat, x: Task)
    requires t < |s.tsk| && s.ready != [] && s.ready[0] == t && x.stat.Runnable? && IsRunnable(s, t)
    ensures Place(s, t, x, true) == Join(s.(ready := s.ready[1..], tsk := s.tsk[t := x]), t, true)
  {
    assert IndexOf(s.ready, t) == 0;
    assert Remove(s.ready, t) == s.ready[1..];
    assert SetTsk(Leave(s, t), t, x) == s.(ready := s.ready[1..], tsk := s.tsk[t := x]);
  }

  lemma SecondIsBehind(s: K, s2: K, t: nat)
    requires ReadyInv(s) && |s.ready| > 1 && s.ready[0] == t && t < |s.tsk|
    requires |s2.tsk| == |s.tsk| && s2.obj == s.obj && forall y: nat :: y != t ==> Tsk(s2, y) == Tsk(s, y)
    ensures At(Pris(s), t) <= At(Pris(s2), s.ready[1])
  {
    var y := s.ready[1];
    assert Apart(s.ready, 0, 1) && InOrder(Pris(s), s.ready, 0, 1);
    assert y in s.ready && ReadyAt(s, y);
    assert Pri(s2, y) == Pri(s, y);
  }

  /** Locking a mutex never calls for a dispatch: the caller stays at the head of the precedence list. */
  lemma AcquireKeepsSched(s: K, t: nat, m: nat)
    requires Inv(s) && !s.ctx && s.run == Some(t) && IsMtx(s.obj, m) && Own(s, m) == None
    ensures Sched(Acquire(s, t, m)) == s.run
  {
    if Dsp(s) {
      OwnQueues(s, m, Some(t));
      var locks := Tsk(s, t).locks + [m];
      assert locks[..|locks| - 1] == Tsk(s, t).locks;
      assert ReadyAt(s, t);
      HeadStays(SetOwn(s, m, Some(t)), t, locks);
    }
  }

  lemma AcquireInv(s: K, m: nat)
    requires Inv(s) && !s.ctx && s.run.Some? && IsMtx(s.obj, m) && Own(s, m) == None
    requires IsCeil(s.obj, m) ==> Ceiling(s.obj, m) <= Tsk(s, Self(s)).bpri
    ensures Inv(Acquire(s, Self(s), m))
  {
    var t := Self(s);
    AcquireCore(s, t, m);
    AcquireKeepsSched(s, t, m);
    var s1 := Acquire(s, t, m);
    forall y: nat ensures RasterAt(s1, y) {
      assert RasterAt(s, y);
      assert y != |s.tsk| ==> KeptAt(s, s1, y);
    }
    assert KeptAt(s, s1, t);
  }

  lemma LocMtxInv(s: K, m: nat, tmo: nat)
    requires Inv(s) && (s.ctx || s.run.Some?)
    ensures Inv(LocMtx(s, m, tmo).0)
  {
    var er := LocMtx(s, m, tmo).1;
    if er == Ok { AcquireInv(s, m); }
    else if er == Blocked { SleepInv(s, On(m), tmo != TMO_FEVR); }
  }

  lemma PlocMtxInv(s: K, m: nat)
    requires Inv(s) && (s.ctx || s.run.Some?)
    ensures Inv(PlocMtx(s, m).0)
  {
    if PlocMtx(s, m).1 == Ok { AcquireInv(s, m); }
  }

  lemma UnlMtxInv(s: K, m: nat)
    requires Inv(s) && (s.ctx || s.run.Some?)
    ensures Inv(UnlMtx(s, m).0)
  {
    var t := Self(s);
    if UnlMtx(s, m).1 == Ok {
      DropCore(s, t, m);
      var s1 := Relock(s, t, Remove(Tsk(s, t).locks, m));
      ReleaseCore(s1, m, None);
      KeptTrans(s, s1, Unlock(s, t, m), |s.tsk|);
      StepInv(s, Unlock(s, t, m), |s.tsk|);
    }
  }

  lemma IniMtxInv(s: K, m: nat)
    requires Inv(s)
    ensures Inv(IniMtx(s, m).0)
  {
    if IniMtx(s, m).1 == Ok {
      UnwaitAllCore(s, m, Que(s, m), EDlt);
      var s1 := UnwaitAll(s, Que(s, m), EDlt);
      if Own(s1, m).Some? {
        var h := Own(s1, m).value;
        DisownCore(s1, h, m);
        var s3 := SetOwn(Relock(s1, h, Remove(Tsk(s1, h).locks, m)), m, None);
        KeptTrans(s, s1, s3, |s.tsk|);
        StepInv(s, s3, |s.tsk|);
      } else {
        StepInv(s, s1, |s.tsk|);
      }
    }
  }

  /** A mutex without waiters is taken from its owner. */
  lemma DisownCore(s: K, h: nat, m: nat)
    requires Core(s, None, None) && Own(s, m) == Some(h) && Que(s, m) == []
    ensures var s3 := SetOwn(Relock(s, h, Remove(Tsk(s, h).locks, m)), m, None);
      Core(s3, None, None) && Kept(s, s3, |s.tsk|)
  {
    var locks := Remove(Tsk(s, h).locks, m);
    var s2 := Relock(s, h, locks);
    assert OwnAt(s, m, None);
    DropCore(s, h, m);
    RelockFacts(s, h, locks);
    QueueStays(s, s2, m);
    ReleaseNone(s2, m, None);
    KeptTrans(s, s2, SetOwn(s2, m, None), |s.tsk|);
  }

  lemma QueueStays(s: K, s1: K, m: nat)
    requires WaitInv(s) && WaitInv(s1) && Que(s, m) == []
    requires forall y: nat :: Tsk(s1, y).stat == Tsk(s, y).stat
    ensures Que(s1, m) == []
  {
    assert QueInv(s, m) && QueInv(s1, m);
    forall y: nat ensures y !in Que(s1, m) { assert QueAt(s1, m, y) && QueAt(s, m, y); }
    SomeIn(Que(s1, m));
  }

  // ---------- semaphores ----------

  /** A count changes while nobody waits. */
  lemma CountCore(s: K, o: nat, n: nat)
    requires Core(s, None, None) && IsSem(s.obj, o) && n <= s.obj[o].max && Que(s, o) == []
    ensures Core(SetCnt(s, o, n), None, None) && Kept(s, SetCnt(s, o, n), |s.tsk|)
  {
    var s1 := SetCnt(s, o, n);
    assert Pris(s1) == Pris(s);
    forall y: nat ensures PriOk(s1, y) && TaskOk(Tsk(s1, y)) && ReadyAt(s1, y) && LocksAt(s1, y, None)
                          && CeilFits(s1.obj, Tsk(s1, y)) && KeptAt(s, s1, y) {
      assert PriOk(s, y) && TaskOk(Tsk(s, y)) && ReadyAt(s, y) && LocksAt(s, y, None) && CeilFits(s.obj, Tsk(s, y));
    }
    forall y: nat, p: nat ensures LockAt(s1, y, p, None) { assert LockAt(s, y, p, None); }
    forall p: nat ensures ObjOk(s1, p) && OwnAt(s1, p, None) && QueInv(s1, p) && CondAt(s1, p) {
      assert ObjOk(s, p) && OwnAt(s, p, None) && QueInv(s, p) && CondAt(s, p);
      forall y: nat ensures QueAt(s1, p, y) { assert QueAt(s, p, y); }
      forall y: nat | y in Que(s1, p) ensures MayWait(s1, y, p) { assert MayWait(s, y, p); }
    }
  }

  lemma CountInv(s: K, o: nat, n: nat)
    requires Inv(s) && IsSem(s.obj, o) && n <= s.obj[o].max && Que(s, o) == []
    ensures Inv(SetCnt(s, o, n))
  {
    CountCore(s, o, n);
    forall y: nat ensures RasterAt(SetCnt(s, o, n), y) { assert RasterAt(s, y); }
  }

  /** A semaphore that can be taken has no waiters. */
  lemma NoWaiters(s: K, o: nat)
    requires CondInv(s) && IsSem(s.obj, o) && Cnt(s, o) >= 1
    ensures Que(s, o) == [] && Cnt(s, o) <= s.obj[o].max
  {
    assert CondAt(s, o);
    assert forall y: nat :: y in Que(s, o) ==> !MayWait(s, y, o);
    SomeIn(Que(s, o));
  }

  lemma WaiSemInv(s: K, o: nat, tmo: nat)
    requires Inv(s) && (s.ctx || s.run.Some?)
    ensures Inv(WaiSem(s, o, tmo).0)
  {
    var er := WaiSem(s, o, tmo).1;
    if er == Ok {
      NoWaiters(s, o);
      CountInv(s, o, Cnt(s, o) - 1);
    } else if er == Blocked {
      SleepInv(s, On(o), tmo != TMO_FEVR);
    }
  }

  lemma PolSemInv(s: K, o: nat)
    requires Inv(s)
    ensures Inv(PolSem(s, o).0)
  {
    if PolSem(s, o).1 == Ok {
      NoWaiters(s, o);
      CountInv(s, o, Cnt(s, o) - 1);
    }
  }

  lemma SigSemInv(s: K, o: nat)
    requires Inv(s)
    ensures Inv(SigSem(s, o).0)
  {
    if SigSem(s, o).1 == Ok {
      if Que(s, o) != [] {
        var w := Que(s, o)[0];
        assert QueInv(s, o) && QueAt(s, o, w);
        UnwaitInv(s, w, Ok);
      } else {
        CountInv(s, o, Cnt(s, o) + 1);
      }
    }
  }

  lemma IniSemInv(s: K, o: nat)
    requires Inv(s)
    ensures Inv(IniSem(s, o).0)
  {
    if IniSem(s, o).1 == Ok {
      UnwaitAllCore(s, o, Que(s, o), EDlt);
      var s1 := UnwaitAll(s, Que(s, o), EDlt);
      assert ObjOk(s, o);
      CountCore(s1, o, s.obj[o].init);
      KeptTrans(s, s1, SetCnt(s1, o, s.obj[o].init), |s.tsk|);
      StepInv(s, SetCnt(s1, o, s.obj[o].init), |s.tsk|);
    }
  }

  // ---------- runs ----------

  lemma TaskCallInv(s: K, c: Call)
    requires Inv(s) && (s.ctx || s.run.Some?)
    requires c.CActTsk? || c.CChgPri? || c.CSlpTsk? || c.CDlyTsk? || c.CWupTsk? || c.CRelWai? || c.CSusTsk? || c.CRsmTsk? || c.CExtTsk? || c.CRasTer? || c.CDisTer? || c.CEnaTer? || c.CTerTsk? || c.CRotRdq? || c.CDisDsp? || c.CEnaDsp? || c.CChgIpm?
    ensures Inv(DoCall(s, c).0)
  {
    match c
    case CActTsk(t) => ActTskInv(s, t);
    case CChgPri(t, p) => ChgPriInv(s, t, p);
    case CSlpTsk(tmo) => SlpTskInv(s, tmo);
    case CDlyTsk(d) => DlyTskInv(s, d);
    case CWupTsk(t) => WupTskInv(s, t);
    case CRelWai(t) => if RelWai(s, t).1 == Ok { UnwaitInv(s, t, ERlwai); }
    case CSusTsk(t) => SusTskInv(s, t);
    case CRsmTsk(t) => RsmTskInv(s, t);
    case CExtTsk => ExtTskInv(s);
    case CRasTer(t) => RasTerInv(s, t);
    case CDisTer => DisTerInv(s);
    case CEnaTer => EnaTerInv(s);
    case CTerTsk(t) => TerTskInv(s, t);
    case CRotRdq(p) => RotRdqInv(s, p);
    case CDisDsp => DisDspInv(s);
    case CEnaDsp => EnaDspInv(s);
    case CChgIpm(open) => ChgIpmInv(s, open);
  }

  lemma MtxCallInv(s: K, c: Call)
    requires Inv(s) && (s.ctx || s.run.Some?)
    requires c.CLocMtx? || c.CPlocMtx? || c.CUnlMtx? || c.CIniMtx?
    ensures Inv(DoCall(s, c).0)
  {
    match c
    case CLocMtx(m, tmo) => LocMtxInv(s, m, tmo);
    case CPlocMtx(m) => PlocMtxInv(s, m);
    case CUnlMtx(m) => UnlMtxInv(s, m);
    case CIniMtx(m) => IniMtxInv(s, m);
  }

  lemma SemCallInv(s: K, c: Call)
    requires Inv(s) && (s.ctx || s.run.Some?)
    requires c.CWaiSem? || c.CPolSem? || c.CSigSem? || c.CIniSem?
    ensures Inv(DoCall(s, c).0)
  {
    match c
    case CWaiSem(o, tmo) =>
      assert DoCall(s, c) == WaiSem(s, o, tmo);
      WaiSemInv(s, o, tmo);
    case CPolSem(o) =>
      assert DoCall(s, c) == PolSem(s, o);
      PolSemInv(s, o);
    case CSigSem(o) =>
      assert DoCall(s, c) == SigSem(s, o);
      SigSemInv(s, o);
    case CIniSem(o) =>
      assert DoCall(s, c) == IniSem(s, o);
      IniSemInv(s, o);
  }

  lemma CallInv(s: K, c: Call)
    requires Inv(s) && (s.ctx || s.run.Some?)
    ensures Inv(DoCall(s, c).0)
  {
    if c.CLocMtx? || c.CPlocMtx? || c.CUnlMtx? || c.CIniMtx? {
      MtxCallInv(s, c);
    } else if c.CWaiSem? || c.CPolSem? || c.CSigSem? || c.CIniSem? {
      SemCallInv(s, c);
    } else {
      TaskCallInv(s, c);
    }
  }

  lemma ContextInv(s: K, ctx: bool)
    requires Inv(s)
    ensures Inv(Resched(s.(ctx := ctx)))
  {
    var s1 := s.(ctx := ctx);
    SameCore(s, s1);
    forall y: nat ensures RasterAt(s1, y) { assert RasterAt(s, y); }
    if !ctx { DispatchInv(s1); }
  }

  lemma ExpireInv(s: K, t: nat)
    requires Inv(s)
    ensures Inv(Expire(s, t))
  {
    if s.ctx && Timed(s, t) {
      var er := if Tsk(s, t).stat.why == Delay then Ok else ETmout;
      UnwaitInv(s, t, er);
      LeaveShape(s, t);
      JoinShape(SetTsk(Leave(s, t), t, Released(Tsk(s, t), er)), t, false);
      assert Resched(Unwait(s, t, er)) == Unwait(s, t, er) == Expire(s, t);
    }
  }

  lemma NextInv(s: K, e: Step)
    requires Inv(s)
    ensures Inv(Next(s, e))
  {
    match e
    case Do(c) => if s.ctx || s.run.Some? { CallInv(s, c); }
    case IntEnter => ContextInv(s, true);
    case IntExit => ContextInv(s, false);
    case TimeEvent(t) => ExpireInv(s, t);
  }

  lemma InitialInv(s: K)
    requires Initial(s)
    ensures Inv(s)
  {
    forall y: nat ensures PriOk(s, y) && TaskOk(Tsk(s, y)) && ReadyAt(s, y) && LocksAt(s, y, None) && RasterAt(s, y)
                          && CeilFits(s.obj, Tsk(s, y)) {
      forall o: nat ensures CeilFitsAt(s.obj, Tsk(s, y), o) {}
    }
    forall o: nat ensures QueInv(s, o) && CondAt(s, o) && ObjOk(s, o) && OwnAt(s, o, None) {
      forall y: nat ensures QueAt(s, o, y) {}
    }
    forall y: nat, o: nat ensures LockAt(s, y, o, None) {}
  }

  /** The invariant holds in every state that any sequence of service calls, interrupts and time events
      leads to. */
  lemma {:induction false} AlwaysInv(s: K, es: seq<Step>)
    requires Initial(s)
    ensures Inv(Run(s, es))
    decreases |es|
  {
    if es == [] {
      InitialInv(s);
    } else {
      AlwaysInv(s, es[..|es| - 1]);
      NextInv(Run(s, es[..|es| - 1]), es[|es| - 1]);
    }
  }
}
