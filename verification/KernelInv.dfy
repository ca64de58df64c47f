/** What holds of the kernel after every step of every run. */
module KernelInv {
  import opened PriorityList
  import opened KernelSpec

  // ---------- the invariant ----------

  ghost predicate WellFormed(s: K) {
    && |s.wq| == |s.cnt| == |s.own| == |s.obj|
    && (forall t: nat :: PriOk(s, t))
    && (forall o: nat :: ObjOk(s, o))
    && (s.run.Some? ==> s.run.value < |s.tsk|)
  }

  ghost predicate PriOk(s: K, t: nat) {
    Tsk(s, t).ipri < TNUM_TPRI && Tsk(s, t).bpri < TNUM_TPRI
  }

  ghost predicate ObjOk(s: K, o: nat) {
    && (IsCeil(s.obj, o) ==> Ceiling(s.obj, o) < TNUM_TPRI)
    && (IsSem(s.obj, o) ==> s.obj[o].init <= s.obj[o].max)
  }

  /** The precedence list holds exactly the runnable tasks, each once, in order of current priority. */
  ghost predicate ReadyInv(s: K) {
    && NoDup(s.ready)
    && (forall t: nat :: ReadyAt(s, t))
    && Sorted(Pris(s), s.ready)
  }

  ghost predicate ReadyAt(s: K, t: nat) { t in s.ready <==> IsRunnable(s, t) }

  /** The queue of an object holds exactly the tasks that wait for it, each once; a queue by priority is
      in order of current priority. */
  ghost predicate WaitInv(s: K) {
    forall o: nat :: QueInv(s, o)
  }

  ghost predicate QueInv(s: K, o: nat) {
    && NoDup(Que(s, o))
    && (forall t: nat :: QueAt(s, o, t))
    && (ByPriority(s.obj, o) ==> Sorted(Pris(s), Que(s, o)))
  }

  ghost predicate QueAt(s: K, o: nat, t: nat) { t in Que(s, o) <==> WaitsOn(s, t, o) }

  /** What the fields of a single task say about each other. */
  ghost predicate TaskOk(x: Task) {
    && (x.stat.Dormant? ==> !x.raster && x.enater && !x.wupque)
    && (x.raster ==> x.stat.Runnable?)
    && (x.stat.Waiting? ==> x.winfo.Timer?)
    && (x.stat.Waiting? && x.stat.why == Delay ==> x.winfo.on)
  }

  ghost predicate TaskInv(s: K) {
    forall t: nat :: TaskOk(Tsk(s, t))
  }

  /** Owners and locks agree, except that `free` is a mutex between two owners; a dormant task holds
      nothing, except that `ending` is a task in the course of giving up its locks. */
  ghost predicate LockInv(s: K, ending: Option<nat>, free: Option<nat>) {
    && (forall t: nat, o: nat :: LockAt(s, t, o, free))
    && (forall o: nat :: OwnAt(s, o, free))
    && (forall t: nat :: LocksAt(s, t, ending))
  }

  ghost predicate LockAt(s: K, t: nat, o: nat, free: Option<nat>) {
    o in Tsk(s, t).locks ==> Own(s, o) == Some(t) && Some(o) != free
  }

  ghost predicate OwnAt(s: K, o: nat, free: Option<nat>) {
    Own(s, o).Some? ==>
      && IsMtx(s.obj, o) && Own(s, o).value < |s.tsk|
      && (Some(o) != free ==> o in Tsk(s, Own(s, o).value).locks)
  }

  ghost predicate LocksAt(s: K, t: nat, ending: Option<nat>) {
    && NoDup(Tsk(s, t).locks)
    && (Tsk(s, t).stat.Dormant? && Some(t) != ending ==> Tsk(s, t).locks == [])
  }

  /** No base priority is above the ceiling of a mutex the task has locked or waits for. */
  ghost predicate CeilInv(s: K, ending: Option<nat>) {
    forall t: nat :: Some(t) != ending ==> CeilFits(s.obj, Tsk(s, t))
  }

  ghost predicate CeilFits(obj: seq<Obj>, x: Task) {
    forall o: nat :: CeilFitsAt(obj, x, o)
  }

  ghost predicate CeilFitsAt(obj: seq<Obj>, x: Task, o: nat) {
    IsCeil(obj, o) && (o in x.locks || (x.stat.Waiting? && x.stat.why == On(o))) ==> Ceiling(obj, o) <= x.bpri
  }

  /** Tasks wait only for what is not to be had: a semaphore at zero, a mutex someone else owns. */
  ghost predicate CondInv(s: K) {
    forall o: nat :: CondAt(s, o)
  }

  ghost predicate CondAt(s: K, o: nat) {
    && (IsSem(s.obj, o) ==> Cnt(s, o) <= s.obj[o].max)
    && (forall t: nat :: t in Que(s, o) ==> MayWait(s, t, o))
  }

  ghost predicate MayWait(s: K, t: nat, o: nat) {
    && o < |s.obj|
    && (if s.obj[o].Sem? then Cnt(s, o) == 0 else Own(s, o).Some? && Own(s, o).value != t)
  }

  ghost predicate Core(s: K, ending: Option<nat>, free: Option<nat>) {
    && WellFormed(s) && ReadyInv(s) && WaitInv(s) && TaskInv(s)
    && LockInv(s, ending, free) && CeilInv(s, ending) && CondInv(s)
  }

  /** The running task is runnable; while dispatching is held off there is one and it stays; outside
      interrupt handlers it is the task that should run. A termination that is both requested and
      permitted waits only for dispatching to be allowed again. */
  ghost predicate RunInv(s: K) {
    && (s.run.Some? ==> IsRunnable(s, s.run.value))
    && (!Dsp(s) ==> s.run.Some?)
    && (!s.ctx ==> s.run == Sched(s))
    && (forall t: nat :: RasterAt(s, t))
  }

  ghost predicate RasterAt(s: K, t: nat) {
    Tsk(s, t).raster && Tsk(s, t).enater ==> s.run == Some(t) && !Dsp(s)
  }

  ghost predicate Inv(s: K) {
    Core(s, None, None) && RunInv(s)
  }

  // ---------- priorities ----------

  lemma {:induction false} EffPriIsMin(obj: seq<Obj>, b: nat, locks: seq<nat>)
    ensures EffPri(obj, b, locks) <= b
    ensures forall o :: o in locks ==> EffPri(obj, b, locks) <= Ceiling(obj, o)
    ensures EffPri(obj, b, locks) == b || exists o :: o in locks && EffPri(obj, b, locks) == Ceiling(obj, o)
  {
    if locks != [] {
      var n := |locks| - 1;
      EffPriIsMin(obj, b, locks[..n]);
      assert locks == locks[..n] + [locks[n]];
      assert locks[n] in locks;
      assert forall o :: o in locks ==> o in locks[..n] || o == locks[n];
    }
  }

  // ---------- moving a task ----------

  /** The queues are in order as far as the tasks other than `t` are concerned; `t` is in none. */
  ghost predicate AllBut(s: K, t: nat) {
    && NoDup(s.ready)
    && (forall y: nat :: y in s.ready <==> IsRunnable(s, y) && y != t)
    && Sorted(Pris(s), s.ready)
    && (forall o: nat :: QueBut(s, o, t))
  }

  ghost predicate QueBut(s: K, o: nat, t: nat) {
    && NoDup(Que(s, o))
    && (forall y: nat :: y in Que(s, o) <==> WaitsOn(s, y, o) && y != t)
    && (ByPriority(s.obj, o) ==> Sorted(Pris(s), Que(s, o)))
  }

  lemma LeaveFacts(s: K, t: nat)
    requires WellFormed(s) && ReadyInv(s) && WaitInv(s)
    ensures AllBut(Leave(s, t), t)
  {
    LeaveReady(s, t);
    forall o: nat ensures QueBut(Leave(s, t), o, t) { LeaveQue(s, t, o); }
  }

  lemma LeaveReady(s: K, t: nat)
    requires ReadyInv(s)
    ensures var s1 := Leave(s, t);
      && s1.ready == Remove(s.ready, t) && NoDup(s1.ready) && Sorted(Pris(s1), s1.ready)
      && (forall y: nat :: y in s1.ready <==> IsRunnable(s, y) && y != t)
  {
    RemoveFacts(s.ready, t);
    RemoveSorted(Pris(s), s.ready, t);
    LeaveShape(s, t);
    assert ReadyAt(s, t);
    forall y: nat ensures y in Leave(s, t).ready <==> IsRunnable(s, y) && y != t { assert ReadyAt(s, y); }
  }

  /** Leaving a queue changes nothing but queues. */
  lemma LeaveShape(s: K, t: nat)
    ensures var s1 := Leave(s, t); s1 == s.(ready := s1.ready, wq := s1.wq) && |s1.wq| == |s.wq|
    ensures Pris(Leave(s, t)) == Pris(s)
  {
    match Tsk(s, t).stat
    case Runnable =>
    case Waiting(why, _) => match why { case On(o) => case _ => }
    case _ =>
  }

  lemma LeaveQueIs(s: K, t: nat, o: nat)
    requires QueInv(s, o)
    ensures Que(Leave(s, t), o) == Remove(Que(s, o), t)
  {
    if !WaitsOn(s, t, o) {
      assert t !in Que(s, o) by { assert QueAt(s, o, t); }
      RemoveFacts(Que(s, o), t);
      OtherQueue(s, t, o);
    }
  }

  lemma OtherQueue(s: K, t: nat, o: nat)
    requires !WaitsOn(s, t, o)
    ensures Que(Leave(s, t), o) == Que(s, o)
  {
    match Tsk(s, t).stat
    case Waiting(why, _) => match why { case On(_) => case _ => }
    case _ =>
  }

  lemma LeaveQue(s: K, t: nat, o: nat)
    requires WellFormed(s) && WaitInv(s)
    ensures Que(Leave(s, t), o) == Remove(Que(s, o), t)
    ensures QueBut(Leave(s, t), o, t)
  {
    var s1 := Leave(s, t);
    assert QueInv(s, o);
    LeaveShape(s, t);
    LeaveQueIs(s, t, o);
    RemoveFacts(Que(s, o), t);
    if ByPriority(s.obj, o) { RemoveSorted(Pris(s), Que(s, o), t); }
    forall y: nat ensures y in Que(s1, o) <==> WaitsOn(s1, y, o) && y != t { assert QueAt(s, o, y); }
  }

  lemma SetFacts(s: K, t: nat, x: Task)
    requires AllBut(s, t) && t < |s.tsk|
    ensures AllBut(SetTsk(s, t, x), t)
  {
    var s1 := SetTsk(s, t, x);
    assert forall y: nat :: y != t ==> Tsk(s1, y) == Tsk(s, y) && At(Pris(s1), y) == At(Pris(s), y);
    SortedFrame(Pris(s), Pris(s1), s.ready);
    forall o: nat ensures QueBut(s1, o, t) {
      assert QueBut(s, o, t);
      assert Que(s1, o) == Que(s, o);
      if ByPriority(s.obj, o) { SortedFrame(Pris(s), Pris(s1), Que(s, o)); }
    }
  }

  lemma JoinFacts(s: K, t: nat, front: bool)
    requires |s.wq| == |s.obj| && AllBut(s, t) && t < |s.tsk|
    requires Tsk(s, t).stat.Waiting? && Tsk(s, t).stat.why.On? ==> Tsk(s, t).stat.why.obj < |s.obj|
    ensures ReadyInv(Join(s, t, front)) && WaitInv(Join(s, t, front))
  {
    var s1 := Join(s, t, front);
    JoinShape(s, t, front);
    if IsRunnable(s, t) { InsertFacts(Pris(s), s.ready, t, front); }
    forall y: nat ensures ReadyAt(s1, y) {}
    forall o: nat ensures QueInv(s1, o) {
      assert QueBut(s, o, t);
      JoinQue(s, t, front, o);
    }
  }

  /** Joining a queue changes nothing but queues. */
  lemma JoinShape(s: K, t: nat, front: bool)
    ensures var s1 := Join(s, t, front); s1 == s.(ready := s1.ready, wq := s1.wq) && |s1.wq| == |s.wq|
    ensures Pris(Join(s, t, front)) == Pris(s)
  {
    match Tsk(s, t).stat
    case Runnable =>
    case Waiting(why, _) => match why { case On(o) => case _ => }
    case _ =>
  }

  lemma JoinQueIs(s: K, t: nat, front: bool, o: nat)
    requires WaitsOn(s, t, o) ==> o < |s.wq|
    ensures Que(Join(s, t, front), o) ==
      if !WaitsOn(s, t, o) then Que(s, o)
      else if ByPriority(s.obj, o) then Insert(Pris(s), Que(s, o), t, false) else Que(s, o) + [t]
  {
    match Tsk(s, t).stat
    case Waiting(why, _) => match why { case On(_) => case _ => }
    case _ =>
  }

  lemma JoinQue(s: K, t: nat, front: bool, o: nat)
    requires |s.wq| == |s.obj| && QueBut(s, o, t) && t < |s.tsk|
    requires Tsk(s, t).stat.Waiting? && Tsk(s, t).stat.why.On? ==> Tsk(s, t).stat.why.obj < |s.obj|
    ensures QueInv(Join(s, t, front), o)
  {
    var s1 := Join(s, t, front);
    JoinShape(s, t, front);
    JoinQueIs(s, t, front, o);
    if WaitsOn(s, t, o) {
      if ByPriority(s.obj, o) { InsertFacts(Pris(s), Que(s, o), t, false); } else { AppendFacts(Que(s, o), t); }
    }
    forall y: nat ensures QueAt(s1, o, y) { assert WaitsOn(s1, y, o) <==> WaitsOn(s, y, o); }
  }

  /** `s1` is `s` but for the record of `t` and the places in the queues. */
  ghost predicate Moved(s: K, s1: K, t: nat, x: Task) {
    && t < |s.tsk| && |s1.wq| == |s.wq|
    && s1 == s.(tsk := s.tsk[t := x], ready := s1.ready, wq := s1.wq)
  }

  lemma PlaceMoved(s: K, t: nat, x: Task, front: bool)
    requires t < |s.tsk|
    ensures Moved(s, Place(s, t, x, front), t, x)
  {
    LeaveShape(s, t);
    JoinShape(SetTsk(Leave(s, t), t, x), t, front);
  }

  lemma PlaceFacts(s: K, t: nat, x: Task, front: bool)
    requires WellFormed(s) && ReadyInv(s) && WaitInv(s)
    requires t < |s.tsk| && (x.stat.Waiting? && x.stat.why.On? ==> x.stat.why.obj < |s.obj|)
    ensures var s1 := Place(s, t, x, front); ReadyInv(s1) && WaitInv(s1)
  {
    var s1 := Leave(s, t);
    var s2 := SetTsk(s1, t, x);
    assert AllBut(s2, t) by {
      LeaveFacts(s, t);
      SetFacts(s1, t, x);
    }
    LeaveShape(s, t);
    JoinFacts(s2, t, front);
  }

  /** A record task `t` may take on without a change to its locks. */
  ghost predicate Fits(s: K, t: nat, x: Task, ending: Option<nat>) {
    && t < |s.tsk| && x.ipri < TNUM_TPRI && x.bpri < TNUM_TPRI && TaskOk(x) && x.locks == Tsk(s, t).locks
    && (x.stat.Dormant? && Some(t) != ending ==> x.locks == [])
    && (x.stat.Waiting? && x.stat.why.On? ==> MayWait(s, t, x.stat.why.obj))
    && (Some(t) != ending ==> CeilFits(s.obj, x))
  }

  lemma MovedWell(s: K, s1: K, t: nat, x: Task)
    requires WellFormed(s) && TaskInv(s) && Moved(s, s1, t, x)
    requires x.ipri < TNUM_TPRI && x.bpri < TNUM_TPRI && TaskOk(x)
    ensures WellFormed(s1) && TaskInv(s1)
  {
    forall y: nat ensures PriOk(s1, y) && TaskOk(Tsk(s1, y)) { assert PriOk(s, y) && TaskOk(Tsk(s, y)); }
    forall o: nat ensures ObjOk(s1, o) { assert ObjOk(s, o); }
  }

  lemma MovedLock(s: K, s1: K, t: nat, x: Task, ending: Option<nat>, free: Option<nat>)
    requires LockInv(s, ending, free) && CeilInv(s, ending) && Moved(s, s1, t, x) && Fits(s, t, x, ending)
    ensures LockInv(s1, ending, free) && CeilInv(s1, ending)
  {
    assert forall y: nat :: Tsk(s1, y).locks == Tsk(s, y).locks;
    forall y: nat, o: nat ensures LockAt(s1, y, o, free) { assert LockAt(s, y, o, free); }
    forall o: nat ensures OwnAt(s1, o, free) { assert OwnAt(s, o, free); }
    forall y: nat ensures LocksAt(s1, y, ending) { assert LocksAt(s, y, ending); }
    forall y: nat | Some(y) != ending ensures CeilFits(s1.obj, Tsk(s1, y)) {
      assert y != t ==> CeilFits(s.obj, Tsk(s, y));
    }
  }

  /** Tasks that wait for nothing to be had still do after one task has moved. */
  lemma MovedCond(s: K, s1: K, t: nat, x: Task)
    requires CondInv(s) && WaitInv(s) && WaitInv(s1) && Moved(s, s1, t, x)
    requires x.stat.Waiting? && x.stat.why.On? ==> MayWait(s, t, x.stat.why.obj)
    ensures CondInv(s1)
  {
    forall o: nat ensures CondAt(s1, o) {
      assert CondAt(s, o) && QueInv(s, o) && QueInv(s1, o);
      forall y: nat | y in Que(s1, o) ensures MayWait(s1, y, o) {
        assert QueAt(s1, o, y) && QueAt(s, o, y);
      }
    }
  }

  lemma PlaceCore(s: K, t: nat, x: Task, front: bool, ending: Option<nat>, free: Option<nat>)
    requires Core(s, ending, free) && Fits(s, t, x, ending)
    ensures var s1 := Place(s, t, x, front); Core(s1, ending, free) && Moved(s, s1, t, x)
  {
    var s1 := Place(s, t, x, front);
    PlaceMoved(s, t, x, front);
    PlaceFacts(s, t, x, front);
    MovedWell(s, s1, t, x);
    MovedLock(s, s1, t, x, ending, free);
    MovedCond(s, s1, t, x);
  }

  /** The record stays in the same queue. */
  ghost predicate SamePlace(s: K, t: nat, x: Task) {
    || x.stat == Tsk(s, t).stat
    || (x.stat.Waiting? && Tsk(s, t).stat.Waiting? && x.stat.why == Tsk(s, t).stat.why)
  }

  lemma SetQueues(s: K, t: nat, x: Task)
    requires ReadyInv(s) && WaitInv(s) && t < |s.tsk| && SamePlace(s, t, x)
    requires EffPri(s.obj, x.bpri, x.locks) == Pri(s, t)
    ensures var s1 := SetTsk(s, t, x); ReadyInv(s1) && WaitInv(s1) && Pris(s1) == Pris(s)
  {
    var s1 := SetTsk(s, t, x);
    assert Pris(s1) == Pris(s);
    forall y: nat ensures ReadyAt(s1, y) { assert ReadyAt(s, y); }
    forall o: nat ensures QueInv(s1, o) {
      assert QueInv(s, o);
      forall y: nat ensures QueAt(s1, o, y) { assert QueAt(s, o, y); }
    }
  }

  /** A change to a record that leaves the task's queue and priority alone. */
  lemma SetCore(s: K, t: nat, x: Task, ending: Option<nat>, free: Option<nat>)
    requires Core(s, ending, free) && Fits(s, t, x, ending) && SamePlace(s, t, x)
    requires EffPri(s.obj, x.bpri, x.locks) == Pri(s, t)
    ensures Core(SetTsk(s, t, x), ending, free)
  {
    var s1 := SetTsk(s, t, x);
    SetQueues(s, t, x);
    MovedWell(s, s1, t, x);
    MovedLock(s, s1, t, x, ending, free);
    MovedCond(s, s1, t, x);
  }

  lemma FitsSelf(s: K, t: nat, ending: Option<nat>, free: Option<nat>)
    requires Core(s, ending, free) && t < |s.tsk|
    ensures Fits(s, t, Tsk(s, t), ending)
  {
    assert PriOk(s, t) && TaskOk(Tsk(s, t)) && LocksAt(s, t, ending);
    if Tsk(s, t).stat.Waiting? && Tsk(s, t).stat.why.On? {
      var o := Tsk(s, t).stat.why.obj;
      assert QueInv(s, o) && QueAt(s, o, t) && CondAt(s, o);
    }
  }
}
