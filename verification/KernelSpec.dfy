/** The scheduler, the mutexes, the semaphores and the wait states of the kernel as one value, without
    any of the redundant data the kernel keeps for speed.

    There is one precedence list `ready` of the runnable tasks instead of sixteen queues and a bitmap;
    the task to run is the head of that list instead of a cached pointer; a task's current priority is
    computed from its base priority and its locks instead of being stored; the locks of a task are a
    sequence instead of a chain through the mutexes. The class `Kernel.Kernel` keeps all of these and is
    proved to do what the functions here say.
  */
module KernelSpec {
  import opened PriorityList

  datatype Option<+T> = None | Some(value: T)

  /** Error codes a service call returns, and `Blocked` for a call that put its caller to sleep: the
      code such a call returns later is the one its release leaves in the caller's `winfo`. */
  datatype ER = Ok | ECtx | EId | EPar | EObj | EIluse | EQovr | ERaster | ERlwai | ETmout | EDlt | Blocked

  const TNUM_TPRI: nat := 16
  const TMO_POL: nat := 0
  const TMO_FEVR: nat := 0xFFFF_FFFF
  const TMAX_RELTIM: nat := 4000000000

  /** What a task waits for. */
  datatype Reason = Sleep | Delay | On(obj: nat)

  /** A waiting task may be suspended as well (`sus`). */
  datatype Stat = Dormant | Runnable | Suspended | Waiting(why: Reason, sus: bool)

  /** The wait information block is a union: while the task waits it says whether a time event is
      registered for it, afterwards it holds the result of the wait. */
  datatype WInfo = Timer(on: bool) | Result(er: ER)

  datatype Task = Task(stat: Stat, ipri: nat, noactque: bool, bpri: nat, locks: seq<nat>, actque: bool,
                       wupque: bool, raster: bool, enater: bool, winfo: WInfo)

  const NOBODY: Task := Task(Dormant, 0, false, 0, [], false, false, false, true, Result(Ok))

  datatype Obj = Sem(tpri: bool, init: nat, max: nat) | Mtx(tpri: bool) | Ceil(ceil: nat)

  datatype K = K(tsk: seq<Task>, obj: seq<Obj>, wq: seq<seq<nat>>, cnt: seq<nat>, own: seq<Option<nat>>,
                 ready: seq<nat>, run: Option<nat>, enadsp: bool, ipmopen: bool, ctx: bool)

  // ---------- looking things up ----------

  function Tsk(s: K, t: nat): Task { if t < |s.tsk| then s.tsk[t] else NOBODY }

  function SetTsk(s: K, t: nat, x: Task): K {
    if t < |s.tsk| then s.(tsk := s.tsk[t := x]) else s
  }

  function Que(s: K, o: nat): seq<nat> { if o < |s.wq| then s.wq[o] else [] }

  function SetQue(s: K, o: nat, q: seq<nat>): K {
    if o < |s.wq| then s.(wq := s.wq[o := q]) else s
  }

  function Own(s: K, o: nat): Option<nat> { if o < |s.own| then s.own[o] else None }

  function SetOwn(s: K, o: nat, x: Option<nat>): K {
    if o < |s.own| then s.(own := s.own[o := x]) else s
  }

  function Cnt(s: K, o: nat): nat { if o < |s.cnt| then s.cnt[o] else 0 }

  function SetCnt(s: K, o: nat, n: nat): K {
    if o < |s.cnt| then s.(cnt := s.cnt[o := n]) else s
  }

  predicate IsCeil(obj: seq<Obj>, o: nat) { o < |obj| && obj[o].Ceil? }

  predicate IsMtx(obj: seq<Obj>, o: nat) { o < |obj| && !obj[o].Sem? }

  predicate IsSem(obj: seq<Obj>, o: nat) { o < |obj| && obj[o].Sem? }

  /** The queue of a priority ceiling mutex is in priority order too. */
  predicate ByPriority(obj: seq<Obj>, o: nat) { o < |obj| && (obj[o].Ceil? || obj[o].tpri) }

  /** The ceiling of a mutex; an object without one does not limit any priority. */
  function Ceiling(obj: seq<Obj>, o: nat): nat {
    if IsCeil(obj, o) then obj[o].ceil else TNUM_TPRI
  }

  function Min(a: nat, b: nat): nat { if a <= b then a else b }

  /** The current priority: the best of the base priority and the ceilings of the locked mutexes. */
  function EffPri(obj: seq<Obj>, bpri: nat, locks: seq<nat>): nat {
    if locks == [] then bpri
    else Min(EffPri(obj, bpri, locks[..|locks| - 1]), Ceiling(obj, locks[|locks| - 1]))
  }

  function Pri(s: K, t: nat): nat {
    EffPri(s.obj, Tsk(s, t).bpri, Tsk(s, t).locks)
  }

  function Pris(s: K): seq<nat> {
    seq(|s.tsk|, t requires 0 <= t < |s.tsk| => Pri(s, t))
  }

  predicate HoldsCeil(s: K, t: nat) {
    exists o :: o in Tsk(s, t).locks && IsCeil(s.obj, o)
  }

  /** A ceiling mutex that the task has locked or waits for does not admit base priority `p`. */
  predicate CeilingBars(s: K, t: nat, p: nat) {
    exists o | 0 <= o < |s.obj| :: (o in Tsk(s, t).locks || WaitsOn(s, t, o)) && p < Ceiling(s.obj, o) && IsCeil(s.obj, o)
  }

  predicate IsRunnable(s: K, t: nat) { Tsk(s, t).stat.Runnable? }

  predicate IsWaiting(s: K, t: nat) { Tsk(s, t).stat.Waiting? }

  predicate IsSuspended(s: K, t: nat) {
    Tsk(s, t).stat.Suspended? || (Tsk(s, t).stat.Waiting? && Tsk(s, t).stat.sus)
  }

  predicate WaitsOn(s: K, t: nat, o: nat) { IsWaiting(s, t) && Tsk(s, t).stat.why == On(o) }

  /** Whether a time event is registered for the task. */
  predicate Timed(s: K, t: nat) { IsWaiting(s, t) && Tsk(s, t).winfo == Timer(true) }

  predicate Dsp(s: K) { s.enadsp && s.ipmopen }

  /** The task that should run: the head of the precedence list, or, while dispatching is held off, the
      running task. */
  function Sched(s: K): Option<nat> {
    if !Dsp(s) then s.run else if s.ready == [] then None else Some(s.ready[0])
  }

  // ---------- moving tasks ----------

  /** The task leaves whatever queue its state has it in. */
  function Leave(s: K, t: nat): K {
    match Tsk(s, t).stat
    case Runnable => s.(ready := Remove(s.ready, t))
    case Waiting(On(o), _) => SetQue(s, o, Remove(Que(s, o), t))
    case _ => s
  }

  /** The task joins the queue its state calls for: behind its equals by priority, or, in a queue in
      order of arrival, at the end. `front` puts it ahead of its equals in the ready list. */
  function Join(s: K, t: nat, front: bool): K {
    match Tsk(s, t).stat
    case Runnable => s.(ready := Insert(Pris(s), s.ready, t, front))
    case Waiting(On(o), _) =>
      SetQue(s, o, if ByPriority(s.obj, o) then Insert(Pris(s), Que(s, o), t, false) else Que(s, o) + [t])
    case _ => s
  }

  /** The one way tasks move: out of a queue, into a new state, into the queue of that state. */
  function Place(s: K, t: nat, x: Task, front: bool): K {
    Join(SetTsk(Leave(s, t), t, x), t, front)
  }

  function Wake(s: K, t: nat): K {
    Place(s, t, Tsk(s, t).(stat := Runnable), false)
  }

  /** The running task goes to sleep. */
  function Block(s: K, t: nat, why: Reason, timed: bool): K {
    Place(s, t, Tsk(s, t).(stat := Waiting(why, false), winfo := Timer(timed)), false)
  }

  /** State of a released task: runnable, or only suspended if it had been suspended during its wait. */
  function Released(x: Task, er: ER): Task {
    x.(stat := if x.stat.Waiting? && x.stat.sus then Suspended else Runnable, winfo := Result(er))
  }

  function Unwait(s: K, t: nat, er: ER): K {
    Place(s, t, Released(Tsk(s, t), er), false)
  }

  /** Release of every task of a queue, the first one first. */
  function UnwaitAll(s: K, q: seq<nat>, er: ER): K
    decreases |q|
  {
    if q == [] then s else UnwaitAll(Unwait(s, q[0], er), q[1..], er)
  }

  /** The task gets a record with another priority, and the place that goes with it. A task in a queue
      in order of arrival keeps its place. */
  function Replace(s: K, t: nat, x: Task, front: bool): K {
    if x.stat.Waiting? && !(x.stat.why.On? && ByPriority(s.obj, x.stat.why.obj)) then SetTsk(s, t, x)
    else Place(s, t, x, front)
  }

  // ---------- mutexes ----------

  /** The task gets other locks, and a new place ahead of its equals if that changes its priority. */
  function Relock(s: K, t: nat, locks: seq<nat>): K {
    var x := Tsk(s, t).(locks := locks);
    if EffPri(s.obj, x.bpri, locks) == Pri(s, t) then SetTsk(s, t, x) else Replace(s, t, x, true)
  }

  function Acquire(s: K, t: nat, m: nat): K {
    Relock(SetOwn(s, m, Some(t)), t, Tsk(s, t).locks + [m])
  }

  /** The owner has let go of mutex `m`: the head of its queue gets it, or nobody does. */
  function Release(s: K, m: nat): K {
    if Que(s, m) == [] then SetOwn(s, m, None)
    else
      var w := Que(s, m)[0];
      var x := Released(Tsk(s, w), Ok);
      SetOwn(Place(s, w, x.(locks := x.locks + [m]), false), m, Some(w))
  }

  function Unlock(s: K, t: nat, m: nat): K {
    Release(Relock(s, t, Remove(Tsk(s, t).locks, m)), m)
  }

  /** All locks of a task that no longer runs are given up, the latest first. */
  function ReleaseAll(s: K, t: nat, locks: seq<nat>): K
    decreases |locks|
  {
    if locks == [] then s
    else
      var n := |locks| - 1;
      ReleaseAll(Release(SetTsk(s, t, Tsk(s, t).(locks := locks[..n])), locks[n]), t, locks[..n])
  }

  // ---------- end of a task ----------

  function Ended(x: Task): Task {
    x.(stat := Dormant, bpri := x.ipri, wupque := false, raster := false, enater := true)
  }

  function Terminate(s: K, t: nat): K {
    var s1 := Place(s, t, Ended(Tsk(s, t)), false);
    var s2 := ReleaseAll(s1, t, Tsk(s, t).locks);
    if Tsk(s2, t).actque then Wake(SetTsk(s2, t, Tsk(s2, t).(actque := false)), t) else s2
  }

  // ---------- service calls ----------

  function Dispatch(s: K): K { s.(run := Sched(s)) }

  /** A call made by a task ends with a dispatch, one made by an interrupt handler does not. */
  function Resched(s: K): K { if s.ctx then s else Dispatch(s) }

  /** The calling task; there is one whenever a call is made outside interrupt handlers. */
  function Self(s: K): nat { if s.run.Some? then s.run.value else 0 }

  predicate ValidTmo(tmo: nat) { tmo <= TMAX_RELTIM || tmo == TMO_FEVR }

  predicate ValidTsk(s: K, t: nat) { t < |s.tsk| }

  function ActTsk(s: K, t: nat): (K, ER) {
    if !ValidTsk(s, t) then (s, EId)
    else if Tsk(s, t).stat.Dormant? then (Resched(Wake(s, t)), Ok)
    else if Tsk(s, t).noactque || Tsk(s, t).actque then (s, EQovr)
    else (SetTsk(s, t, Tsk(s, t).(actque := true)), Ok)
  }

  /** `tskpri` is 1 for the highest priority, 0 stands for the start priority of the task. */
  function ChgPri(s: K, t: nat, tskpri: nat): (K, ER) {
    var x := Tsk(s, t);
    if s.ctx then (s, ECtx)
    else if !ValidTsk(s, t) then (s, EId)
    else if tskpri > TNUM_TPRI then (s, EPar)
    else
      var p := if tskpri == 0 then x.ipri else tskpri - 1;
      if x.stat.Dormant? then (s, EObj)
      else if CeilingBars(s, t, p) then (s, EIluse)
      else
        var x' := x.(bpri := p);
        if HoldsCeil(s, t) then (SetTsk(s, t, x'), Ok) else (Dispatch(Replace(s, t, x', false)), Ok)
  }

  function SlpTsk(s: K, tmo: nat): (K, ER) {
    var x := Tsk(s, Self(s));
    if s.ctx || !Dsp(s) then (s, ECtx)
    else if !ValidTmo(tmo) then (s, EPar)
    else if x.raster then (s, ERaster)
    else if x.wupque then (SetTsk(s, Self(s), x.(wupque := false)), Ok)
    else if tmo == TMO_POL then (s, ETmout)
    else (Dispatch(Block(s, Self(s), Sleep, tmo != TMO_FEVR)), Blocked)
  }

  function DlyTsk(s: K, dlytim: nat): (K, ER) {
    if s.ctx || !Dsp(s) then (s, ECtx)
    else if dlytim > TMAX_RELTIM then (s, EPar)
    else if Tsk(s, Self(s)).raster then (s, ERaster)
    else (Dispatch(Block(s, Self(s), Delay, true)), Blocked)
  }

  function WupTsk(s: K, t: nat): (K, ER) {
    var x := Tsk(s, t);
    if !ValidTsk(s, t) then (s, EId)
    else if x.stat.Dormant? then (s, EObj)
    else if x.stat.Waiting? && x.stat.why == Sleep then (Resched(Unwait(s, t, Ok)), Ok)
    else if !x.wupque then (SetTsk(s, t, x.(wupque := true)), Ok)
    else (s, EQovr)
  }

  function RelWai(s: K, t: nat): (K, ER) {
    if !ValidTsk(s, t) then (s, EId)
    else if !IsWaiting(s, t) then (s, EObj)
    else (Resched(Unwait(s, t, ERlwai)), Ok)
  }

  function SusTsk(s: K, t: nat): (K, ER) {
    var x := Tsk(s, t);
    if s.ctx then (s, ECtx)
    else if !ValidTsk(s, t) then (s, EId)
    else if s.run == Some(t) && !Dsp(s) then (s, ECtx)
    else if x.stat.Dormant? then (s, EObj)
    else if x.raster then (s, ERaster)
    else if x.stat.Runnable? then (Dispatch(Place(s, t, x.(stat := Suspended), false)), Ok)
    else if IsSuspended(s, t) then (s, EQovr)
    else (SetTsk(s, t, x.(stat := Waiting(x.stat.why, true))), Ok)
  }

  function RsmTsk(s: K, t: nat): (K, ER) {
    var x := Tsk(s, t);
    if s.ctx then (s, ECtx)
    else if !ValidTsk(s, t) then (s, EId)
    else if !IsSuspended(s, t) then (s, EObj)
    else if x.stat.Suspended? then (Dispatch(Wake(s, t)), Ok)
    else (SetTsk(s, t, x.(stat := Waiting(x.stat.why, false))), Ok)
  }

  function ExtTsk(s: K): (K, ER) {
    if s.ctx then (s, ECtx)
    else (Dispatch(Terminate(s.(enadsp := true, ipmopen := true), Self(s))), Ok)
  }

  function RasTer(s: K, t: nat): (K, ER) {
    var x := Tsk(s, t);
    if s.ctx then (s, ECtx)
    else if !ValidTsk(s, t) then (s, EId)
    else if s.run == Some(t) then (s, EIluse)
    else if x.stat.Dormant? then (s, EObj)
    else if x.enater then (Dispatch(Terminate(s, t)), Ok)
    else if x.stat.Runnable? then (SetTsk(s, t, x.(raster := true)), Ok)
    else
      var w := if x.stat.Waiting? then Result(ERaster) else x.winfo;
      (Dispatch(Place(s, t, x.(stat := Runnable, raster := true, winfo := w), false)), Ok)
  }

  function DisTer(s: K): (K, ER) {
    if s.ctx then (s, ECtx)
    else (SetTsk(s, Self(s), Tsk(s, Self(s)).(enater := false)), Ok)
  }

  function EnaTer(s: K): (K, ER) {
    if s.ctx then (s, ECtx)
    else if Tsk(s, Self(s)).raster && Dsp(s) then (Dispatch(Terminate(s, Self(s))), Ok)
    else (SetTsk(s, Self(s), Tsk(s, Self(s)).(enater := true)), Ok)
  }

  function TerTsk(s: K, t: nat): (K, ER) {
    if s.ctx then (s, ECtx)
    else if !ValidTsk(s, t) then (s, EId)
    else if s.run == Some(t) then (s, EIluse)
    else if Tsk(s, t).stat.Dormant? then (s, EObj)
    else (Dispatch(Terminate(s, t)), Ok)
  }

  /** Of the tasks of one priority, the first goes behind the others. */
  function Rotate(s: K, p: nat): K {
    var i := Slot(Pris(s), s.ready, p, true);
    if i < |s.ready| && At(Pris(s), s.ready[i]) == p then Place(s, s.ready[i], Tsk(s, s.ready[i]), false)
    else s
  }

  /** `tskpri` 0 stands for the base priority of the caller, outside interrupt handlers. */
  function RotRdq(s: K, tskpri: nat): (K, ER) {
    if tskpri > TNUM_TPRI || (tskpri == 0 && s.ctx) then (s, EPar)
    else (Resched(Rotate(s, if tskpri == 0 then Tsk(s, Self(s)).bpri else tskpri - 1)), Ok)
  }

  function DisDsp(s: K): (K, ER) {
    if s.ctx then (s, ECtx) else (s.(enadsp := false), Ok)
  }

  /** Dispatching has become possible: a pending termination of the running task is carried out. */
  function Opened(s: K): K {
    var x := Tsk(s, Self(s));
    Dispatch(if x.raster && x.enater then Terminate(s, Self(s)) else s)
  }

  function EnaDsp(s: K): (K, ER) {
    if s.ctx then (s, ECtx)
    else if s.ipmopen then (Opened(s.(enadsp := true)), Ok)
    else (s.(enadsp := true), Ok)
  }

  /** `open` says whether the new mask lets all interrupts through. */
  function ChgIpm(s: K, open: bool): (K, ER) {
    if s.ctx then (s, ECtx)
    else if open && s.enadsp then (Opened(s.(ipmopen := true)), Ok)
    else (s.(ipmopen := open), Ok)
  }

  function LocMtx(s: K, m: nat, tmo: nat): (K, ER) {
    var x := Tsk(s, Self(s));
    if s.ctx || !Dsp(s) then (s, ECtx)
    else if !IsMtx(s.obj, m) then (s, EId)
    else if !ValidTmo(tmo) then (s, EPar)
    else if x.raster then (s, ERaster)
    else if IsCeil(s.obj, m) && x.bpri < Ceiling(s.obj, m) then (s, EIluse)
    else if Own(s, m) == None then (Acquire(s, Self(s), m), Ok)
    else if Own(s, m) == s.run then (s, EObj)
    else if tmo == TMO_POL then (s, ETmout)
    else (Dispatch(Block(s, Self(s), On(m), tmo != TMO_FEVR)), Blocked)
  }

  function PlocMtx(s: K, m: nat): (K, ER) {
    var x := Tsk(s, Self(s));
    if s.ctx then (s, ECtx)
    else if !IsMtx(s.obj, m) then (s, EId)
    else if IsCeil(s.obj, m) && x.bpri < Ceiling(s.obj, m) then (s, EIluse)
    else if Own(s, m) == None then (Acquire(s, Self(s), m), Ok)
    else if Own(s, m) == s.run then (s, EObj)
    else (s, ETmout)
  }

  function UnlMtx(s: K, m: nat): (K, ER) {
    var locks := Tsk(s, Self(s)).locks;
    if s.ctx then (s, ECtx)
    else if !IsMtx(s.obj, m) then (s, EId)
    else if locks == [] || locks[|locks| - 1] != m then (s, EObj)
    else (Dispatch(Unlock(s, Self(s), m)), Ok)
  }

  function IniMtx(s: K, m: nat): (K, ER) {
    if s.ctx then (s, ECtx)
    else if !IsMtx(s.obj, m) then (s, EId)
    else
      var s1 := UnwaitAll(s, Que(s, m), EDlt);
      match Own(s1, m)
      case None => (Dispatch(s1), Ok)
      case Some(h) => (Dispatch(SetOwn(Relock(s1, h, Remove(Tsk(s1, h).locks, m)), m, None)), Ok)
  }

  function WaiSem(s: K, o: nat, tmo: nat): (K, ER) {
    if s.ctx || !Dsp(s) then (s, ECtx)
    else if !IsSem(s.obj, o) then (s, EId)
    else if !ValidTmo(tmo) then (s, EPar)
    else if Tsk(s, Self(s)).raster then (s, ERaster)
    else if Cnt(s, o) >= 1 then (SetCnt(s, o, Cnt(s, o) - 1), Ok)
    else if tmo == TMO_POL then (s, ETmout)
    else (Dispatch(Block(s, Self(s), On(o), tmo != TMO_FEVR)), Blocked)
  }

  function PolSem(s: K, o: nat): (K, ER) {
    if s.ctx then (s, ECtx)
    else if !IsSem(s.obj, o) then (s, EId)
    else if Cnt(s, o) >= 1 then (SetCnt(s, o, Cnt(s, o) - 1), Ok)
    else (s, ETmout)
  }

  function SigSem(s: K, o: nat): (K, ER) {
    if !IsSem(s.obj, o) then (s, EId)
    else if Que(s, o) != [] then (Resched(Unwait(s, Que(s, o)[0], Ok)), Ok)
    else if Cnt(s, o) < s.obj[o].max then (SetCnt(s, o, Cnt(s, o) + 1), Ok)
    else (s, EQovr)
  }

  function IniSem(s: K, o: nat): (K, ER) {
    if s.ctx then (s, ECtx)
    else if !IsSem(s.obj, o) then (s, EId)
    else (Dispatch(SetCnt(UnwaitAll(s, Que(s, o), EDlt), o, s.obj[o].init)), Ok)
  }

  /** The time event of a waiting task has come up, inside the timer interrupt. */
  function Expire(s: K, t: nat): K {
    if s.ctx && Timed(s, t) then Unwait(s, t, if Tsk(s, t).stat.why == Delay then Ok else ETmout) else s
  }

  // ---------- runs ----------

  datatype Call =
    | CActTsk(t: nat) | CChgPri(t: nat, tskpri: nat) | CSlpTsk(tmo: nat) | CDlyTsk(dlytim: nat)
    | CWupTsk(t: nat) | CRelWai(t: nat) | CSusTsk(t: nat) | CRsmTsk(t: nat) | CExtTsk | CRasTer(t: nat)
    | CDisTer | CEnaTer | CTerTsk(t: nat) | CRotRdq(tskpri: nat) | CDisDsp | CEnaDsp | CChgIpm(open: bool)
    | CLocMtx(m: nat, tmo: nat) | CPlocMtx(m: nat) | CUnlMtx(m: nat) | CIniMtx(m: nat)
    | CWaiSem(o: nat, tmo: nat) | CPolSem(o: nat) | CSigSem(o: nat) | CIniSem(o: nat)

  datatype Step = Do(c: Call) | IntEnter | IntExit | TimeEvent(t: nat)

  function DoCall(s: K, c: Call): (K, ER) {
    match c
    case CActTsk(t) => ActTsk(s, t)
    case CChgPri(t, p) => ChgPri(s, t, p)
    case CSlpTsk(tmo) => SlpTsk(s, tmo)
    case CDlyTsk(d) => DlyTsk(s, d)
    case CWupTsk(t) => WupTsk(s, t)
    case CRelWai(t) => RelWai(s, t)
    case CSusTsk(t) => SusTsk(s, t)
    case CRsmTsk(t) => RsmTsk(s, t)
    case CExtTsk => ExtTsk(s)
    case CRasTer(t) => RasTer(s, t)
    case CDisTer => DisTer(s)
    case CEnaTer => EnaTer(s)
    case CTerTsk(t) => TerTsk(s, t)
    case CRotRdq(p) => RotRdq(s, p)
    case CDisDsp => DisDsp(s)
    case CEnaDsp => EnaDsp(s)
    case CChgIpm(open) => ChgIpm(s, open)
    case CLocMtx(m, tmo) => LocMtx(s, m, tmo)
    case CPlocMtx(m) => PlocMtx(s, m)
    case CUnlMtx(m) => UnlMtx(s, m)
    case CIniMtx(m) => IniMtx(s, m)
    case CWaiSem(o, tmo) => WaiSem(s, o, tmo)
    case CPolSem(o) => PolSem(s, o)
    case CSigSem(o) => SigSem(s, o)
    case CIniSem(o) => IniSem(s, o)
  }

  /** A call needs a caller: a running task, or an interrupt handler. An interrupt handler that returns
      lets the task to run take over. */
  function Next(s: K, e: Step): K {
    match e
    case Do(c) => if s.ctx || s.run.Some? then DoCall(s, c).0 else s
    case IntEnter => s.(ctx := true)
    case IntExit => Dispatch(s.(ctx := false))
    case TimeEvent(t) => Expire(s, t)
  }

  function Run(s: K, es: seq<Step>): K
    decreases |es|
  {
    if es == [] then s else Next(Run(s, es[..|es| - 1]), es[|es| - 1])
  }

  /** Before the first task is activated: all tasks dormant, all semaphores at their initial counts. */
  predicate Initial(s: K) {
    && |s.wq| == |s.cnt| == |s.own| == |s.obj|
    && (forall t :: 0 <= t < |s.tsk| ==>
        && s.tsk[t].ipri < TNUM_TPRI
        && s.tsk[t] == NOBODY.(ipri := s.tsk[t].ipri, noactque := s.tsk[t].noactque, bpri := s.tsk[t].ipri))
    && (forall o :: 0 <= o < |s.obj| ==>
        && s.wq[o] == [] && s.own[o] == None
        && (s.obj[o].Ceil? ==> s.obj[o].ceil < TNUM_TPRI)
        && (s.obj[o].Sem? ==> s.cnt[o] == s.obj[o].init <= s.obj[o].max))
    && s.ready == [] && s.run == None && s.enadsp && s.ipmopen
  }
}
