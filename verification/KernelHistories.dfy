/** What the history of a run says about its present: why a task has stopped waiting, who has taken how much
    of a semaphore, what has become of queued requests, and what priorities, suspensions and permissions go
    back to. All of it is told by the calls, their answers and the results left in the tasks. */
module KernelHistories {
  import opened PriorityList
  import opened KernelSpec
  import opened KernelInv
  import opened KernelOps
  import opened KernelRuns
  import opened KernelEffects

  // ---------- waiting and its end ----------

  /** A task waits only because of its own call, answered `Blocked`, for what that call asked for, with a time
      event exactly if the call set a time limit. */
  lemma {:induction false} WaitsByItsOwnCall(s: K, es: seq<Step>, e: Step, t: nat)
    requires Initial(s) && !IsWaiting(Run(s, es), t) && IsWaiting(Next(Run(s, es), e), t)
    ensures var k, x := Run(s, es), Tsk(Next(Run(s, es), e), t);
      && e.Do? && k.run == Some(t) && Answers(k, e.c, Blocked) && !x.stat.sus
      && match e.c
         case CSlpTsk(tmo) => x.stat.why == Sleep && x.winfo == Timer(tmo != TMO_FEVR)
         case CDlyTsk(_) => x.stat.why == Delay && x.winfo == Timer(true)
         case CLocMtx(m, tmo) => x.stat.why == On(m) && x.winfo == Timer(tmo != TMO_FEVR)
         case CWaiSem(o, tmo) => x.stat.why == On(o) && x.winfo == Timer(tmo != TMO_FEVR)
         case _ => false
  {
    AlwaysInv(s, es);
    NextFate(Run(s, es), e, t);
    assert TaskOk(Tsk(Run(s, es), t));
  }

  /** How the wait of task `t` ended, by what it waited for. */
  predicate Served(k: K, e: Step, k1: K, t: nat) {
    match Tsk(k, t).stat
    case Waiting(Sleep, _) => e == Do(CWupTsk(t))
    case Waiting(Delay, _) => e == TimeEvent(t)
    case Waiting(On(o), _) =>
      if IsSem(k.obj, o) then e == Do(CSigSem(o)) && Que(k, o) != [] && Que(k, o)[0] == t else Own(k1, o) == Some(t)
    case _ => false
  }

  /** The ways for a call to end a wait. */
  lemma WaysByCall(k: K, c: Call, er: ER, t: nat)
    requires IsWaiting(k, t) && k.run != Some(t) && !FateBy(k, c, er, t).stat.Waiting?
    ensures var x, r := Tsk(k, t), FateBy(k, c, er, t).winfo;
      || (EndsBy(k, c, er, t) && r == x.winfo)
      || (!EndsBy(k, c, er, t) && Inherits(k, c, er, t) && r == Result(Ok))
      || (!EndsBy(k, c, er, t) && Verdict(k, c, er, t).Some? && r == Result(Verdict(k, c, er, t).value))
      || (!EndsBy(k, c, er, t) && c == CRasTer(t) && er == Ok && r == Result(ERaster))
  {}

  /** The five ways for a wait to end. */
  lemma WaysToStop(k: K, e: Step, t: nat)
    requires Inv(k) && IsWaiting(k, t) && !IsWaiting(Next(k, e), t)
    ensures var x, r := Tsk(k, t), Tsk(Next(k, e), t).winfo;
      || (Ends(k, e, t) && r == x.winfo)
      || (Called(k, e) && !Ends(k, e, t) && Inherits(k, e.c, DoCall(k, e.c).1, t) && r == Result(Ok))
      || (Called(k, e) && !Ends(k, e, t) && Verdict(k, e.c, DoCall(k, e.c).1, t).Some? && r == Result(Verdict(k, e.c, DoCall(k, e.c).1, t).value))
      || (e == Do(CRasTer(t)) && !x.enater && r == Result(ERaster))
      || (e == TimeEvent(t) && r == Result(if x.stat.why == Delay then Ok else ETmout))
  {
    NextFate(k, e, t);
    if Called(k, e) { WaysByCall(k, e.c, DoCall(k, e.c).1, t); }
  }

  ghost predicate SaysWhy(k: K, e: Step, k1: K, t: nat)
    requires IsWaiting(k, t)
  {
    var x, r := Tsk(k, t), Tsk(k1, t).winfo;
    && (r == Result(Ok) <==> Served(k, e, k1, t))
    && (r == Result(ETmout) <==> e == TimeEvent(t) && x.stat.why != Delay)
    && (r == Result(ERlwai) <==> e == Do(CRelWai(t)))
    && (r == Result(EDlt) <==> x.stat.why.On? && (e == Do(CIniSem(x.stat.why.obj)) || e == Do(CIniMtx(x.stat.why.obj))))
    && (r == Result(ERaster) <==> e == Do(CRasTer(t)) && !x.enater)
    && (r.Timer? <==> Ends(k, e, t))
  }

  /** A mutex goes to a task that waits for it only by inheritance. */
  lemma InheritsOnly(k: K, e: Step, t: nat, m: nat)
    requires Inv(k) && WaitsOn(k, t, m)
    ensures m < |k.obj| && Own(k, m) != Some(t)
    ensures Own(Next(k, e), m) == Some(t) ==> Called(k, e) && Inherits(k, e.c, DoCall(k, e.c).1, t)
    ensures Called(k, e) && Inherits(k, e.c, DoCall(k, e.c).1, t) ==> Own(Next(k, e), m) == Some(t) && !IsSem(k.obj, m)
  {
    assert QueInv(k, m) && QueAt(k, m, t) && CondAt(k, m) && OwnAt(k, m, None);
    NextObj(k, e, m);
  }

  lemma StopsSo(k: K, e: Step, t: nat)
    requires Inv(k) && IsWaiting(k, t) && !IsWaiting(Next(k, e), t)
    ensures SaysWhy(k, e, Next(k, e), t)
  {
    ServedOk(k, e, t);
    StopsReleased(k, e, t);
    StopsDeleted(k, e, t);
    StopsTimed(k, e, t);
  }

  lemma StopsTimed(k: K, e: Step, t: nat)
    requires Inv(k) && IsWaiting(k, t) && !IsWaiting(Next(k, e), t)
    ensures var r := Tsk(Next(k, e), t).winfo;
      && (r == Result(ETmout) <==> e == TimeEvent(t) && Tsk(k, t).stat.why != Delay)
      && (r == Result(ERaster) <==> e == Do(CRasTer(t)) && !Tsk(k, t).enater)
      && (r.Timer? <==> Ends(k, e, t))
  {
    assert TaskOk(Tsk(k, t));
    WaysToStop(k, e, t);
  }

  lemma StopsReleased(k: K, e: Step, t: nat)
    requires Inv(k) && IsWaiting(k, t) && !IsWaiting(Next(k, e), t)
    ensures Tsk(Next(k, e), t).winfo == Result(ERlwai) <==> e == Do(CRelWai(t))
  {
    assert TaskOk(Tsk(k, t));
    WaysToStop(k, e, t);
  }

  lemma StopsDeleted(k: K, e: Step, t: nat)
    requires Inv(k) && IsWaiting(k, t) && !IsWaiting(Next(k, e), t)
    ensures var why := Tsk(k, t).stat.why;
      Tsk(Next(k, e), t).winfo == Result(EDlt) <==> why.On? && (e == Do(CIniSem(why.obj)) || e == Do(CIniMtx(why.obj)))
  {
    assert TaskOk(Tsk(k, t));
    NextFate(k, e, t);
    if Called(k, e) { DeletedByCall(k, e.c, DoCall(k, e.c).1, t); }
  }

  lemma DeletedByCall(k: K, c: Call, er: ER, t: nat)
    requires IsWaiting(k, t) && k.run != Some(t) && !StatBy(k, c, er, t).Waiting? && Tsk(k, t).winfo.Timer?
    ensures var why := Tsk(k, t).stat.why;
      WinfoBy(k, c, er, t) == Result(EDlt) <==> why.On? && (c == CIniSem(why.obj) || c == CIniMtx(why.obj))
  {}

  lemma ServedOk(k: K, e: Step, t: nat)
    requires Inv(k) && IsWaiting(k, t) && !IsWaiting(Next(k, e), t)
    ensures Tsk(Next(k, e), t).winfo == Result(Ok) <==> Served(k, e, Next(k, e), t)
  {
    assert TaskOk(Tsk(k, t));
    WaysToStop(k, e, t);
    if e.Do? && e.c.CSigSem? && Que(k, e.c.o) != [] { HeadWaits(k, e.c.o); }
    if Tsk(k, t).stat.why.On? { InheritsOnly(k, e, t, Tsk(k, t).stat.why.obj); }
  }

  /** Whoever stops waiting finds the reason in its result: what it waited for, the time limit, a forced
      release, the reinitialization of what it waited for, a request to end; only an end leaves no result. */
  lemma {:induction false} ResultSaysWhy(s: K, es: seq<Step>, e: Step, t: nat)
    requires Initial(s) && IsWaiting(Run(s, es), t) && !IsWaiting(Next(Run(s, es), e), t)
    ensures SaysWhy(Run(s, es), e, Next(Run(s, es), e), t)
  {
    AlwaysInv(s, es);
    StopsSo(Run(s, es), e, t);
  }

  // ---------- semaphores ----------

  /** What has gone into a semaphore and out of it since it was last initialized: its count then, the signals,
      the waits and polls, each answered `Ok`, and the waiters that a signal has released. */
  datatype Account = Account(start: nat, signals: nat, taken: nat, served: nat)

  /** The tasks that waited for `o` before and do not afterwards, with result `Ok`. */
  function ServedNow(k: K, k1: K, o: nat): set<nat> {
    set t | 0 <= t < |k.tsk| && WaitsOn(k, t, o) && !WaitsOn(k1, t, o) && Tsk(k1, t).winfo == Result(Ok)
  }

  predicate Says(k: K, e: Step, c: Call, er: ER) { e == Do(c) && Answers(k, c, er) }

  predicate Takes(k: K, e: Step, o: nat) {
    e.Do? && ((e.c.CWaiSem? && e.c.o == o) || e.c == CPolSem(o)) && Answers(k, e.c, Ok)
  }

  function AccountOf(s: K, es: seq<Step>, o: nat): Account
    requires IsSem(s.obj, o)
    decreases |es|
  {
    if es == [] then Account(s.obj[o].init, 0, 0, 0)
    else
      var k, e := Run(s, es[..|es| - 1]), es[|es| - 1];
      var a := AccountOf(s, es[..|es| - 1], o);
      if Says(k, e, CIniSem(o), Ok) then Account(s.obj[o].init, 0, 0, 0)
      else Account(a.start, a.signals + (if Says(k, e, CSigSem(o), Ok) then 1 else 0),
                   a.taken + (if Takes(k, e, o) then 1 else 0), a.served + |ServedNow(k, Next(k, e), o)|)
  }

  /** Only a signal serves, and only the first in the queue. */
  lemma ServedBySignal(k: K, e: Step, o: nat)
    requires Inv(k) && IsSem(k.obj, o)
    ensures ServedNow(k, Next(k, e), o) == if Says(k, e, CSigSem(o), Ok) && Que(k, o) != [] then {Que(k, o)[0]} else {}
  {
    forall t: nat ensures t in ServedNow(k, Next(k, e), o) <==> Says(k, e, CSigSem(o), Ok) && Que(k, o) != [] && t == Que(k, o)[0] {
      IsServed(k, e, o, t);
    }
  }

  lemma IsServed(k: K, e: Step, o: nat, t: nat)
    requires Inv(k) && IsSem(k.obj, o)
    ensures t in ServedNow(k, Next(k, e), o) <==> Says(k, e, CSigSem(o), Ok) && Que(k, o) != [] && t == Que(k, o)[0]
  {
    if Que(k, o) != [] { HeadWaits(k, o); }
    if WaitsOn(k, t, o) {
      if IsWaiting(Next(k, e), t) { StaysSo(k, e, t); } else { StopsSo(k, e, t); }
      if Says(k, e, CSigSem(o), Ok) && Que(k, o) != [] && t == Que(k, o)[0] { SignalWakes(k, o, t); }
    }
  }

  lemma SignalWakes(k: K, o: nat, t: nat)
    requires Inv(k) && IsSem(k.obj, o) && Que(k, o) != [] && t == Que(k, o)[0] && (k.ctx || k.run.Some?)
    ensures !IsWaiting(Next(k, Do(CSigSem(o))), t)
  {
    HeadWaits(k, o);
    NextFate(k, Do(CSigSem(o)), t);
  }

  /** A task that goes on waiting waits for the same. */
  lemma StaysSo(k: K, e: Step, t: nat)
    requires Inv(k) && IsWaiting(k, t) && IsWaiting(Next(k, e), t)
    ensures Tsk(Next(k, e), t).stat.why == Tsk(k, t).stat.why
  {
    NextFate(k, e, t);
    if Called(k, e) { StaysByCall(k, e.c, DoCall(k, e.c).1, t); }
  }

  lemma StaysByCall(k: K, c: Call, er: ER, t: nat)
    requires IsWaiting(k, t) && k.run != Some(t) && StatBy(k, c, er, t).Waiting?
    ensures StatBy(k, c, er, t).why == Tsk(k, t).stat.why
  {}

  lemma CountStep(k: K, e: Step, o: nat)
    requires Inv(k) && IsSem(k.obj, o)
    ensures Says(k, e, CIniSem(o), Ok) ==> Cnt(Next(k, e), o) == k.obj[o].init
    ensures !Says(k, e, CIniSem(o), Ok) ==>
      Cnt(Next(k, e), o) + (if Takes(k, e, o) then 1 else 0) + |ServedNow(k, Next(k, e), o)|
      == Cnt(k, o) + (if Says(k, e, CSigSem(o), Ok) then 1 else 0)
  {
    NextObj(k, e, o);
    ServedBySignal(k, e, o);
  }

  lemma {:induction false} SameObjects(s: K, es: seq<Step>)
    requires Initial(s)
    ensures Run(s, es).obj == s.obj && |Run(s, es).tsk| == |s.tsk|
    decreases |es|
  {
    if es != [] {
      SameObjects(s, es[..|es| - 1]);
      AlwaysInv(s, es[..|es| - 1]);
      NextObj(Run(s, es[..|es| - 1]), es[|es| - 1], 0);
    }
  }

  /** In every run, what a semaphore had at its latest initialization and what signals have added is what it has
      now, what waits and polls have taken and what waiting tasks have been given: nothing is lost, and
      nothing is given twice. */
  lemma {:induction false} SemaphoreConserved(s: K, es: seq<Step>, o: nat)
    requires Initial(s) && IsSem(s.obj, o)
    ensures var a := AccountOf(s, es, o); a.start + a.signals == Cnt(Run(s, es), o) + a.taken + a.served
    decreases |es|
  {
    if es != [] {
      var k := Run(s, es[..|es| - 1]);
      SemaphoreConserved(s, es[..|es| - 1], o);
      AlwaysInv(s, es[..|es| - 1]);
      SameObjects(s, es[..|es| - 1]);
      CountStep(k, es[|es| - 1], o);
    }
  }

  lemma WaitAnswers(k: K, o: nat, tmo: nat)
    requires IsSem(k.obj, o) && k.run.Some? && !k.ctx && Dsp(k) && ValidTmo(tmo) && !Tsk(k, k.run.value).raster
    ensures DoCall(k, CWaiSem(o, tmo)).1 == if Cnt(k, o) > 0 then Ok else if tmo == TMO_POL then ETmout else Blocked
  {}

  lemma SignalAnswers(k: K, o: nat)
    requires Inv(k) && IsSem(k.obj, o)
    ensures DoCall(k, CSigSem(o)).1 == if Cnt(k, o) == k.obj[o].max && (forall t: nat :: !WaitsOn(k, t, o)) then EQovr else Ok
  {
    assert QueInv(k, o) && CondAt(k, o);
    if Que(k, o) == [] {
      forall t: nat ensures !WaitsOn(k, t, o) { assert QueAt(k, o, t); }
    } else {
      HeadWaits(k, o);
    }
  }

  /** In every run: a wait is answered at once exactly if there is something to take, a signal is refused only
      if the count is at its maximum and nobody waits. */
  lemma {:induction false} SemaphoreAnswers(s: K, es: seq<Step>, o: nat, tmo: nat)
    requires Initial(s) && IsSem(Run(s, es).obj, o) && Run(s, es).run.Some?
    ensures var k := Run(s, es);
      && (!k.ctx && Dsp(k) && ValidTmo(tmo) && !Tsk(k, k.run.value).raster ==>
            DoCall(k, CWaiSem(o, tmo)).1 == if Cnt(k, o) > 0 then Ok else if tmo == TMO_POL then ETmout else Blocked)
      && (!k.ctx ==> DoCall(k, CPolSem(o)).1 == if Cnt(k, o) > 0 then Ok else ETmout)
      && DoCall(k, CSigSem(o)).1 == if Cnt(k, o) == k.obj[o].max && (forall t: nat :: !WaitsOn(k, t, o)) then EQovr else Ok
  {
    var k := Run(s, es);
    AlwaysInv(s, es);
    SignalAnswers(k, o);
    if !k.ctx && Dsp(k) && ValidTmo(tmo) && !Tsk(k, k.run.value).raster { WaitAnswers(k, o, tmo); }
  }

  // ---------- mutexes ----------

  /** In every run: who may lock a mutex, and what comes of it. A ceiling mutex is refused exactly to tasks
      whose base priority is better than the ceiling; a task admitted gets the mutex exactly if nobody has it. */
  lemma {:induction false} LockAnswers(s: K, es: seq<Step>, m: nat, tmo: nat)
    requires Initial(s)
    requires var k := Run(s, es);
      !k.ctx && k.run.Some? && Dsp(k) && ValidTmo(tmo) && IsMtx(k.obj, m) && !Tsk(k, k.run.value).raster
    ensures var k := Run(s, es);
      var t := k.run.value;
      var (k1, er) := DoCall(k, CLocMtx(m, tmo));
      var barred := IsCeil(k.obj, m) && Tsk(k, t).bpri < k.obj[m].ceil;
      && (er == EIluse <==> barred)
      && (er == Ok <==> !barred && Own(k, m) == None)
      && (er == EObj <==> !barred && Own(k, m) == Some(t))
      && (er == ETmout <==> !barred && Own(k, m).Some? && Own(k, m) != Some(t) && tmo == TMO_POL)
      && (er == Blocked <==> !barred && Own(k, m).Some? && Own(k, m) != Some(t) && tmo != TMO_POL)
      && (er == Ok ==> Own(k1, m) == Some(t) && Tsk(k1, t) == Tsk(k, t).(locks := Tsk(k, t).locks + [m]) && k1.run == k.run)
      && (er == Blocked ==> WaitsOn(k1, t, m))
      && (forall y: nat :: y != t ==> Tsk(k1, y) == Tsk(k, y))
      && (forall o: nat :: o != m || er != Ok ==> Own(k1, o) == Own(k, o))
  {
    AlwaysInv(s, es);
    LockAnswersAt(Run(s, es), m, tmo);
    LockEffect(Run(s, es), CLocMtx(m, tmo), m);
    LockKeepsRunner(Run(s, es), m, tmo);
  }

  lemma LockAnswersAt(k: K, m: nat, tmo: nat)
    requires !k.ctx && k.run.Some? && Dsp(k) && ValidTmo(tmo) && IsMtx(k.obj, m) && !Tsk(k, k.run.value).raster
    ensures var t, er := k.run.value, DoCall(k, CLocMtx(m, tmo)).1;
      var barred := IsCeil(k.obj, m) && Tsk(k, t).bpri < k.obj[m].ceil;
      && (er == EIluse <==> barred)
      && (er == Ok <==> !barred && Own(k, m) == None)
      && (er == EObj <==> !barred && Own(k, m) == Some(t))
      && (er == ETmout <==> !barred && Own(k, m).Some? && Own(k, m) != Some(t) && tmo == TMO_POL)
      && (er == Blocked <==> !barred && Own(k, m).Some? && Own(k, m) != Some(t) && tmo != TMO_POL)
  {}

  lemma LockKeepsRunner(k: K, m: nat, tmo: nat)
    requires Inv(k) && k.run.Some?
    ensures DoCall(k, CLocMtx(m, tmo)).1 == Ok ==> DoCall(k, CLocMtx(m, tmo)).0.run == k.run
  {
    if DoCall(k, CLocMtx(m, tmo)).1 == Ok {
      AcquireCore(k, k.run.value, m);
    }
  }

  lemma LockEffect(k: K, c: Call, m: nat)
    requires Inv(k) && k.run.Some? && (c == CPlocMtx(m) || (c.CLocMtx? && c.m == m))
    ensures var t := k.run.value;
      var (k1, er) := DoCall(k, c);
      && (er == Ok ==> Own(k1, m) == Some(t) && Tsk(k1, t) == Tsk(k, t).(locks := Tsk(k, t).locks + [m]))
      && (er == Blocked ==> WaitsOn(k1, t, m))
      && (forall y: nat :: y != t ==> Tsk(k1, y) == Tsk(k, y))
      && (forall o: nat :: o != m || er != Ok ==> Own(k1, o) == Own(k, o))
  {
    var (k1, er) := DoCall(k, c);
    CallFollows(k, c);
    assert ReadyAt(k, k.run.value);
    LockFollowed(k, c, er, m, k1);
  }

  lemma LockFollowed(k: K, c: Call, er: ER, m: nat, k1: K)
    requires k.run.Some? && (c == CPlocMtx(m) || (c.CLocMtx? && c.m == m)) && (er == Blocked ==> c.CLocMtx?)
    requires Follows(k, c, er, k1) && IsRunnable(k, k.run.value) && (er == Ok ==> Own(k, m) == None)
    ensures var t := k.run.value;
      && (er == Ok ==> Own(k1, m) == Some(t) && Tsk(k1, t) == Tsk(k, t).(locks := Tsk(k, t).locks + [m]))
      && (er == Blocked ==> WaitsOn(k1, t, m))
      && (forall y: nat :: y != t ==> Tsk(k1, y) == Tsk(k, y))
      && (forall o: nat :: o != m || er != Ok ==> Own(k1, o) == Own(k, o))
  {
    var t := k.run.value;
    assert TaskAt(k, c, er, k1, t) && ObjAt(k, c, er, k1, m);
    LockTells(k, c, er, m, t);
    forall y: nat | y != t ensures Tsk(k1, y) == Tsk(k, y) {
      assert TaskAt(k, c, er, k1, y);
      LockTells(k, c, er, m, y);
    }
    forall o: nat | o != m || er != Ok ensures Own(k1, o) == Own(k, o) { assert ObjAt(k, c, er, k1, o); }
  }

  lemma LockTells(k: K, c: Call, er: ER, m: nat, y: nat)
    requires (c == CPlocMtx(m) || (c.CLocMtx? && c.m == m)) && (er == Blocked ==> c.CLocMtx?)
    ensures k.run != Some(y) ==> FateBy(k, c, er, y) == Tsk(k, y)
    ensures k.run == Some(y) && er == Ok ==> FateBy(k, c, er, y) == Tsk(k, y).(locks := Tsk(k, y).locks + [m])
    ensures k.run == Some(y) && er == Blocked ==> FateBy(k, c, er, y).stat == Waiting(On(m), false)
  {
    if c.CPlocMtx? { PlocTells(k, m, er, y); } else { LocTells(k, m, c.tmo, er, y); }
  }

  lemma PlocTells(k: K, m: nat, er: ER, y: nat)
    ensures FateBy(k, CPlocMtx(m), er, y) ==
      if k.run == Some(y) && er == Ok then Tsk(k, y).(locks := Tsk(k, y).locks + [m]) else Tsk(k, y)
  {}

  lemma LocTells(k: K, m: nat, tmo: nat, er: ER, y: nat)
    ensures FateBy(k, CLocMtx(m, tmo), er, y) ==
      if k.run == Some(y) && er == Ok then Tsk(k, y).(locks := Tsk(k, y).locks + [m])
      else if k.run == Some(y) && er == Blocked then Asleep(Tsk(k, y), On(m), tmo != TMO_FEVR)
      else Tsk(k, y)
  {}

  /** The same without waiting, which is allowed while dispatching is held off. */
  lemma {:induction false} PollLockAnswers(s: K, es: seq<Step>, m: nat)
    requires Initial(s)
    requires var k := Run(s, es); !k.ctx && k.run.Some? && IsMtx(k.obj, m)
    ensures var k := Run(s, es);
      var t := k.run.value;
      var (k1, er) := DoCall(k, CPlocMtx(m));
      var barred := IsCeil(k.obj, m) && Tsk(k, t).bpri < k.obj[m].ceil;
      && (er == EIluse <==> barred)
      && (er == Ok <==> !barred && Own(k, m) == None)
      && (er == EObj <==> !barred && Own(k, m) == Some(t))
      && (er == ETmout <==> !barred && Own(k, m).Some? && Own(k, m) != Some(t))
      && (er == Ok ==> Own(k1, m) == Some(t) && Tsk(k1, t) == Tsk(k, t).(locks := Tsk(k, t).locks + [m]))
      && (forall y: nat :: y != t ==> Tsk(k1, y) == Tsk(k, y))
      && (forall o: nat :: o != m || er != Ok ==> Own(k1, o) == Own(k, o))
  {
    AlwaysInv(s, es);
    LockEffect(Run(s, es), CPlocMtx(m), m);
  }

  /** In every run, a task that is ended or unlocks a mutex passes each mutex it gives up to the task at the head
      of its queue, or to nobody; no other step takes a mutex from its owner, except its reinitialization. */
  lemma {:induction false} MutexesPassOn(s: K, es: seq<Step>, e: Step, m: nat)
    requires Initial(s) && Own(Run(s, es), m).Some?
    ensures var k, k1 := Run(s, es), Next(Run(s, es), e);
      var t := Own(k, m).value;
      if Ends(k, e, t) || Says(k, e, CUnlMtx(m), Ok) then
        if Que(k, m) == [] then Own(k1, m) == None
        else
          var w := Que(k, m)[0];
          && Own(k1, m) == Some(w) && WaitsOn(k, w, m) && !IsWaiting(k1, w) && Tsk(k1, w).winfo == Result(Ok)
          && Tsk(k1, w).locks == Tsk(k, w).locks + [m]
      else Own(k1, m) == (if Says(k, e, CIniMtx(m), Ok) then None else Some(t))
  {
    AlwaysInv(s, es);
    PassesOn(Run(s, es), e, m);
    if Que(Run(s, es), m) != [] { HeirStops(Run(s, es), e, m); }
  }

  lemma PassesOn(k: K, e: Step, m: nat)
    requires Inv(k) && Own(k, m).Some?
    ensures var t := Own(k, m).value;
      Own(Next(k, e), m) ==
        if Ends(k, e, t) || Says(k, e, CUnlMtx(m), Ok) then (if Que(k, m) == [] then None else Some(Que(k, m)[0]))
        else if Says(k, e, CIniMtx(m), Ok) then None else Some(t)
  {
    NextObj(k, e, m);
  }

  lemma HeirStops(k: K, e: Step, m: nat)
    requires Inv(k) && Own(k, m).Some? && Que(k, m) != []
    ensures var w, k1 := Que(k, m)[0], Next(k, e);
      Ends(k, e, Own(k, m).value) || Says(k, e, CUnlMtx(m), Ok) ==>
        WaitsOn(k, w, m) && !IsWaiting(k1, w) && Tsk(k1, w).winfo == Result(Ok) && Tsk(k1, w).locks == Tsk(k, w).locks + [m]
  {
    HeadWaits(k, m);
    OwnerWaitsNot(k, m);
    NextFate(k, e, Que(k, m)[0]);
  }

  // ---------- queued requests ----------

  /** Requests made to a task and answered `Ok`, those that have been used, and those dropped with its end. */
  datatype Requests = Requests(asked: nat, used: nat, dropped: nat)

  /** The task starts: it was dormant, or its end is followed by a new start. */
  predicate Starts(k: K, e: Step, k1: K, t: nat) {
    (Tsk(k, t).stat.Dormant? || Ends(k, e, t)) && !Tsk(k1, t).stat.Dormant?
  }

  function ActivationsOf(s: K, es: seq<Step>, t: nat): Requests
    decreases |es|
  {
    if es == [] then Requests(0, 0, 0)
    else
      var k, e := Run(s, es[..|es| - 1]), es[|es| - 1];
      var r := ActivationsOf(s, es[..|es| - 1], t);
      r.(asked := r.asked + (if Says(k, e, CActTsk(t), Ok) then 1 else 0),
         used := r.used + (if Starts(k, e, Next(k, e), t) then 1 else 0))
  }

  lemma ActivationByCall(k: K, c: Call, er: ER, t: nat)
    requires Tsk(k, t).actque ==> !Tsk(k, t).stat.Dormant? && (c == CActTsk(t) ==> er != Ok)
    requires Tsk(k, t).stat.Dormant? ==> k.run != Some(t) && (c == CRasTer(t) || c == CSusTsk(t) || c == CRsmTsk(t) ==> er != Ok)
    ensures var x, stat, actque := Tsk(k, t), StatBy(k, c, er, t), ActqueBy(k, c, er, t);
      && (if c == CActTsk(t) && er == Ok then 1 else 0) + (if x.actque then 1 else 0)
         == (if (x.stat.Dormant? || EndsBy(k, c, er, t)) && !stat.Dormant? then 1 else 0) + (if actque then 1 else 0)
      && (actque ==> !stat.Dormant?)
  {}

  lemma ActivationStep(k: K, e: Step, t: nat)
    requires Inv(k) && (Tsk(k, t).actque ==> !Tsk(k, t).stat.Dormant?)
    ensures (if Says(k, e, CActTsk(t), Ok) then 1 else 0) + (if Tsk(k, t).actque then 1 else 0)
      == (if Starts(k, e, Next(k, e), t) then 1 else 0) + (if Tsk(Next(k, e), t).actque then 1 else 0)
    ensures Tsk(Next(k, e), t).actque ==> !Tsk(Next(k, e), t).stat.Dormant?
  {
    NextFate(k, e, t);
    assert k.run == Some(t) ==> IsRunnable(k, t);
    if Called(k, e) { ActivationByCall(k, e.c, DoCall(k, e.c).1, t); }
  }

  /** In every run, each activation asked for has started the task once or is the one that is queued, and no
      activation is queued for a dormant task. */
  lemma {:induction false} ActivationsKept(s: K, es: seq<Step>, t: nat)
    requires Initial(s)
    ensures var r := ActivationsOf(s, es, t); r.asked == r.used + (if Tsk(Run(s, es), t).actque then 1 else 0)
    ensures Tsk(Run(s, es), t).actque ==> !Tsk(Run(s, es), t).stat.Dormant?
    decreases |es|
  {
    if es != [] {
      ActivationsKept(s, es[..|es| - 1], t);
      AlwaysInv(s, es[..|es| - 1]);
      ActivationStep(Run(s, es[..|es| - 1]), es[|es| - 1], t);
    }
  }

  /** A wake-up is used: the task goes on instead of going to sleep, or it is woken. */
  predicate WakeUsed(k: K, e: Step, k1: K, t: nat) {
    || (e.Do? && e.c.CSlpTsk? && k.run == Some(t) && Answers(k, e.c, Ok))
    || (IsWaiting(k, t) && Tsk(k, t).stat.why == Sleep && !IsWaiting(k1, t) && Tsk(k1, t).winfo == Result(Ok))
  }

  function WakeupsOf(s: K, es: seq<Step>, t: nat): Requests
    decreases |es|
  {
    if es == [] then Requests(0, 0, 0)
    else
      var k, e := Run(s, es[..|es| - 1]), es[|es| - 1];
      var r := WakeupsOf(s, es[..|es| - 1], t);
      Requests(r.asked + (if Says(k, e, CWupTsk(t), Ok) then 1 else 0),
               r.used + (if WakeUsed(k, e, Next(k, e), t) then 1 else 0),
               r.dropped + (if Ends(k, e, t) && Tsk(k, t).wupque then 1 else 0))
  }

  lemma WakeupByCall(k: K, c: Call, er: ER, t: nat)
    requires TaskOk(Tsk(k, t)) && (k.run == Some(t) ==> IsRunnable(k, t))
    requires c == CWupTsk(t) ==> if IsWaiting(k, t) && Tsk(k, t).stat.why == Sleep then er == Ok else er == Ok ==> !Tsk(k, t).wupque
    requires c.CSlpTsk? && k.run == Some(t) && er == Ok ==> Tsk(k, t).wupque
    requires c.CSigSem? && Que(k, c.o) != [] && Que(k, c.o)[0] == t ==> WaitsOn(k, t, c.o)
    ensures var x := Tsk(k, t);
      var used := (c.CSlpTsk? && k.run == Some(t) && er == Ok)
        || (x.stat.Waiting? && x.stat.why == Sleep && !StatBy(k, c, er, t).Waiting? && WinfoBy(k, c, er, t) == Result(Ok));
      (if c == CWupTsk(t) && er == Ok then 1 else 0) + (if x.wupque then 1 else 0)
      == (if used then 1 else 0) + (if EndsBy(k, c, er, t) && x.wupque then 1 else 0) + (if WupqueBy(k, c, er, t) then 1 else 0)
  {}

  lemma WakeupStep(k: K, e: Step, t: nat)
    requires Inv(k)
    ensures (if Says(k, e, CWupTsk(t), Ok) then 1 else 0) + (if Tsk(k, t).wupque then 1 else 0)
      == (if WakeUsed(k, e, Next(k, e), t) then 1 else 0) + (if Ends(k, e, t) && Tsk(k, t).wupque then 1 else 0)
         + (if Tsk(Next(k, e), t).wupque then 1 else 0)
  {
    NextFate(k, e, t);
    assert TaskOk(Tsk(k, t));
    if e.Do? && e.c.CSigSem? && Que(k, e.c.o) != [] { HeadWaits(k, e.c.o); }
    if Called(k, e) { WakeupByCall(k, e.c, DoCall(k, e.c).1, t); }
  }

  /** In every run, each wake-up asked for has kept the task from sleeping once, or is the one that is queued, or
      was queued when the task ended. */
  lemma {:induction false} WakeupsKept(s: K, es: seq<Step>, t: nat)
    requires Initial(s)
    ensures var r := WakeupsOf(s, es, t); r.asked == r.used + r.dropped + (if Tsk(Run(s, es), t).wupque then 1 else 0)
    decreases |es|
  {
    if es != [] {
      WakeupsKept(s, es[..|es| - 1], t);
      AlwaysInv(s, es[..|es| - 1]);
      WakeupStep(Run(s, es[..|es| - 1]), es[|es| - 1], t);
    }
  }

  // ---------- what goes back to what ----------

  /** What the calls made so far have come to for one task: the base priority last asked for, whether it has been
      suspended and not resumed, whether it permits its termination, and whether that has been requested. */
  datatype Story = Story(base: nat, suspended: bool, permits: bool, requested: bool)

  function StoryBy(k: K, c: Call, er: ER, t: nat, start: Story, h: Story): Story {
    if EndsBy(k, c, er, t) then start
    else if er != Ok then h
    else
      match c
      case CSusTsk(u) => if u == t then h.(suspended := true) else h
      case CRsmTsk(u) => if u == t then h.(suspended := false) else h
      case CRasTer(u) => if u == t then h.(suspended := false, requested := true) else h
      case CDisTer => if k.run == Some(t) then h.(permits := false) else h
      case CEnaTer => if k.run == Some(t) then h.(permits := true) else h
      case CChgPri(u, p) => if u == t then h.(base := if p == 0 then start.base else p - 1) else h
      case _ => h
  }

  function StoryOf(s: K, es: seq<Step>, t: nat): Story
    decreases |es|
  {
    var start := Story(Tsk(s, t).ipri, false, true, false);
    if es == [] then start
    else
      var k, e := Run(s, es[..|es| - 1]), es[|es| - 1];
      var h := StoryOf(s, es[..|es| - 1], t);
      if Called(k, e) then StoryBy(k, e.c, DoCall(k, e.c).1, t, start, h) else h
  }

  /** The story that a task's record tells. */
  function StoryIn(x: Task): Story {
    Story(x.bpri, x.stat.Suspended? || (x.stat.Waiting? && x.stat.sus), x.enater, x.raster)
  }

  lemma StoryByCall(k: K, c: Call, er: ER, t: nat, start: Story)
    requires start == Story(Tsk(k, t).ipri, false, true, false) && (k.run == Some(t) ==> IsRunnable(k, t))
    ensures StoryIn(FateBy(k, c, er, t)) == StoryBy(k, c, er, t, start, StoryIn(Tsk(k, t)))
  {
    SuspendedByCall(k, c, er, t);
  }

  lemma SuspendedByCall(k: K, c: Call, er: ER, t: nat)
    requires k.run == Some(t) ==> IsRunnable(k, t)
    ensures var x, x1 := Tsk(k, t).stat, StatBy(k, c, er, t);
      x1.Suspended? || (x1.Waiting? && x1.sus) <==>
        !EndsBy(k, c, er, t)
        && !(er == Ok && (c == CRsmTsk(t) || c == CRasTer(t)))
        && ((er == Ok && c == CSusTsk(t)) || x.Suspended? || (x.Waiting? && x.sus))
  {}

  /** In every run, base priority, suspension, and permission and request of termination are what the latest calls
      about them have made them. */
  lemma {:induction false} StoryIsTrue(s: K, es: seq<Step>, t: nat)
    requires Initial(s)
    ensures StoryIn(Tsk(Run(s, es), t)) == StoryOf(s, es, t) && Tsk(Run(s, es), t).ipri == Tsk(s, t).ipri
    decreases |es|
  {
    if es != [] {
      var k, e := Run(s, es[..|es| - 1]), es[|es| - 1];
      StoryIsTrue(s, es[..|es| - 1], t);
      AlwaysInv(s, es[..|es| - 1]);
      NextFate(k, e, t);
      if Called(k, e) {
        StoryByCall(k, e.c, DoCall(k, e.c).1, t, Story(Tsk(s, t).ipri, false, true, false));
      }
    }
  }
}
