/** What each step does to each single task, each count and each owner, said without queues and priorities:
    who is ended, who is handed a mutex, who is released with which result, and what the call tells its own
    task. `Next` moves tasks between queues, releases queues one by one and hands over several mutexes in
    a row; seen from one task all of that comes to one change of its record.
  */
module KernelEffects {
  import opened PriorityList
  import opened KernelSpec
  import opened KernelInv
  import opened KernelOps
  import opened KernelRuns

  // ---------- the fate of a task ----------

  /** The call is made, and answered with `er`. */
  predicate Answers(k: K, c: Call, er: ER) { (k.ctx || k.run.Some?) && DoCall(k, c).1 == er }

  /** The call is the end of task `t`. */
  predicate EndsBy(k: K, c: Call, er: ER, t: nat) {
    match c
    case CTerTsk(u) => u == t && er == Ok
    case CRasTer(u) => u == t && er == Ok && Tsk(k, t).enater
    case CExtTsk => !k.ctx && k.run == Some(t)
    case CEnaTer => !k.ctx && k.run == Some(t) && Tsk(k, t).raster && Dsp(k)
    case CEnaDsp => !k.ctx && k.run == Some(t) && Tsk(k, t).raster && Tsk(k, t).enater && k.ipmopen
    case CChgIpm(open) => !k.ctx && k.run == Some(t) && Tsk(k, t).raster && Tsk(k, t).enater && open && k.enadsp
    case _ => false
  }

  /** After its end: dormant, or started again if an activation was queued. */
  function Renewed(x: Task): Task {
    Task(if x.actque then Runnable else Dormant, x.ipri, x.noactque, x.ipri, [], false, false, false, true, x.winfo)
  }

  /** After its wait: runnable, or suspended if it was suspended meanwhile. */
  function Woken(x: Task, er: ER): Task
    requires x.stat.Waiting?
  {
    x.(stat := if x.stat.sus then Suspended else Runnable, winfo := Result(er))
  }

  /** Task `y` waits at the head of the queue of a mutex whose owner unlocks it or is ended. */
  predicate Inherits(k: K, c: Call, er: ER, y: nat) {
    && IsWaiting(k, y) && Tsk(k, y).stat.why.On?
    && var m := Tsk(k, y).stat.why.obj;
    && LetsGo(k, c, er, m) && Que(k, m) != [] && Que(k, m)[0] == y
  }

  predicate LetsGo(k: K, c: Call, er: ER, m: nat) {
    || (c == CUnlMtx(m) && er == Ok)
    || (Own(k, m).Some? && EndsBy(k, c, er, Own(k, m).value))
  }

  /** The result with which the call releases a task from its wait, if it does. */
  function Verdict(k: K, c: Call, er: ER, y: nat): Option<ER> {
    if !IsWaiting(k, y) then None
    else
      match c
      case CWupTsk(t) => if t == y && Tsk(k, y).stat.why == Sleep then Some(Ok) else None
      case CRelWai(t) => if t == y then Some(ERlwai) else None
      case CSigSem(o) => if IsSem(k.obj, o) && Que(k, o) != [] && Que(k, o)[0] == y then Some(Ok) else None
      case CIniSem(o) => if er == Ok && WaitsOn(k, y, o) then Some(EDlt) else None
      case CIniMtx(m) => if er == Ok && WaitsOn(k, y, m) then Some(EDlt) else None
      case _ => None
  }

  function Asleep(x: Task, why: Reason, timed: bool): Task { x.(stat := Waiting(why, false), winfo := Timer(timed)) }

  /** The state: ended, released, or as the call tells the task it names, or its caller. */
  function StatBy(k: K, c: Call, er: ER, y: nat): Stat {
    var x := Tsk(k, y).stat;
    if EndsBy(k, c, er, y) then if Tsk(k, y).actque then Runnable else Dormant
    else if x.Waiting? && (Inherits(k, c, er, y) || Verdict(k, c, er, y).Some?) then if x.sus then Suspended else Runnable
    else
      match c
      case CActTsk(t) => if t == y && er == Ok && x.Dormant? then Runnable else x
      case CSlpTsk(_) => if k.run == Some(y) && er == Blocked then Waiting(Sleep, false) else x
      case CDlyTsk(_) => if k.run == Some(y) && er == Blocked then Waiting(Delay, false) else x
      case CLocMtx(m, _) => if k.run == Some(y) && er == Blocked then Waiting(On(m), false) else x
      case CWaiSem(o, _) => if k.run == Some(y) && er == Blocked then Waiting(On(o), false) else x
      case CSusTsk(t) => if t != y || er != Ok then x else if x.Waiting? then Waiting(x.why, true) else Suspended
      case CRsmTsk(t) => if t != y || er != Ok then x else if x.Waiting? then Waiting(x.why, false) else Runnable
      case CRasTer(t) => if t == y && er == Ok then Runnable else x
      case _ => x
  }

  /** The wait information: the result of a wait that has ended, or whether a time event is registered. */
  function WinfoBy(k: K, c: Call, er: ER, y: nat): WInfo {
    var x := Tsk(k, y);
    if EndsBy(k, c, er, y) then x.winfo
    else if Inherits(k, c, er, y) then Result(Ok)
    else if Verdict(k, c, er, y).Some? then Result(Verdict(k, c, er, y).value)
    else
      match c
      case CSlpTsk(tmo) => if k.run == Some(y) && er == Blocked then Timer(tmo != TMO_FEVR) else x.winfo
      case CDlyTsk(_) => if k.run == Some(y) && er == Blocked then Timer(true) else x.winfo
      case CLocMtx(_, tmo) => if k.run == Some(y) && er == Blocked then Timer(tmo != TMO_FEVR) else x.winfo
      case CWaiSem(_, tmo) => if k.run == Some(y) && er == Blocked then Timer(tmo != TMO_FEVR) else x.winfo
      case CRasTer(t) => if t == y && er == Ok && x.stat.Waiting? then Result(ERaster) else x.winfo
      case _ => x.winfo
  }

  function BpriBy(k: K, c: Call, er: ER, y: nat): nat {
    var x := Tsk(k, y);
    if EndsBy(k, c, er, y) then x.ipri
    else if c.CChgPri? && c.t == y && er == Ok then if c.tskpri == 0 then x.ipri else c.tskpri - 1
    else x.bpri
  }

  /** The locks: the latest last. */
  function LocksBy(k: K, c: Call, er: ER, y: nat): seq<nat> {
    var x := Tsk(k, y);
    if EndsBy(k, c, er, y) then []
    else if Inherits(k, c, er, y) then x.locks + [x.stat.why.obj]
    else
      match c
      case CLocMtx(m, _) => if k.run == Some(y) && er == Ok then x.locks + [m] else x.locks
      case CPlocMtx(m) => if k.run == Some(y) && er == Ok then x.locks + [m] else x.locks
      case CUnlMtx(_) => if k.run == Some(y) && er == Ok && x.locks != [] then x.locks[..|x.locks| - 1] else x.locks
      case CIniMtx(m) => if Own(k, m) == Some(y) && er == Ok then Remove(x.locks, m) else x.locks
      case _ => x.locks
  }

  function ActqueBy(k: K, c: Call, er: ER, y: nat): bool {
    !EndsBy(k, c, er, y) && (Tsk(k, y).actque || (c == CActTsk(y) && er == Ok && !Tsk(k, y).stat.Dormant?))
  }

  function WupqueBy(k: K, c: Call, er: ER, y: nat): bool {
    if EndsBy(k, c, er, y) || (c.CSlpTsk? && k.run == Some(y) && er == Ok) then false
    else Tsk(k, y).wupque || (c == CWupTsk(y) && er == Ok && !(IsWaiting(k, y) && Tsk(k, y).stat.why == Sleep))
  }

  function RasterBy(k: K, c: Call, er: ER, y: nat): bool {
    !EndsBy(k, c, er, y) && (Tsk(k, y).raster || (c == CRasTer(y) && er == Ok))
  }

  function EnaterBy(k: K, c: Call, er: ER, y: nat): bool {
    if EndsBy(k, c, er, y) || (c == CEnaTer && k.run == Some(y) && er == Ok) then true
    else Tsk(k, y).enater && !(c == CDisTer && k.run == Some(y) && er == Ok)
  }

  /** What a call, answered `er`, makes of the record of task `y`. */
  function FateBy(k: K, c: Call, er: ER, y: nat): Task {
    Task(StatBy(k, c, er, y), Tsk(k, y).ipri, Tsk(k, y).noactque, BpriBy(k, c, er, y), LocksBy(k, c, er, y), ActqueBy(k, c, er, y),
         WupqueBy(k, c, er, y), RasterBy(k, c, er, y), EnaterBy(k, c, er, y), WinfoBy(k, c, er, y))
  }

  /** What becomes of one task in one step. */
  function Fate(k: K, e: Step, y: nat): Task {
    match e
    case Do(c) => if k.ctx || k.run.Some? then FateBy(k, c, DoCall(k, c).1, y) else Tsk(k, y)
    case TimeEvent(t) =>
      if t == y && k.ctx && Timed(k, y) then Woken(Tsk(k, y), if Tsk(k, y).stat.why == Delay then Ok else ETmout)
      else Tsk(k, y)
    case _ => Tsk(k, y)
  }

  // ---------- the fate of an object ----------

  function CntBy(k: K, c: Call, er: ER, o: nat): int {
    match c
    case CWaiSem(p, _) => if p == o && er == Ok then Cnt(k, o) - 1 else Cnt(k, o)
    case CPolSem(p) => if p == o && er == Ok then Cnt(k, o) - 1 else Cnt(k, o)
    case CSigSem(p) => if p == o && er == Ok && Que(k, o) == [] then Cnt(k, o) + 1 else Cnt(k, o)
    case CIniSem(p) => if p == o && er == Ok && IsSem(k.obj, o) then k.obj[o].init else Cnt(k, o)
    case _ => Cnt(k, o)
  }

  function OwnBy(k: K, c: Call, er: ER, o: nat): Option<nat> {
    if LetsGo(k, c, er, o) then (if Que(k, o) == [] then None else Some(Que(k, o)[0]))
    else
      match c
      case CLocMtx(m, _) => if m == o && er == Ok then k.run else Own(k, o)
      case CPlocMtx(m) => if m == o && er == Ok then k.run else Own(k, o)
      case CIniMtx(m) => if m == o && er == Ok then None else Own(k, o)
      case _ => Own(k, o)
  }

  ghost predicate TaskAt(k: K, c: Call, er: ER, k1: K, y: nat) { Tsk(k1, y) == FateBy(k, c, er, y) }

  ghost predicate ObjAt(k: K, c: Call, er: ER, k1: K, o: nat) {
    Cnt(k1, o) == CntBy(k, c, er, o) && Own(k1, o) == OwnBy(k, c, er, o)
  }

  ghost predicate Follows(k: K, c: Call, er: ER, k1: K) {
    && |k1.tsk| == |k.tsk| && k1.obj == k.obj && k1.ctx == k.ctx
    && (forall y: nat :: TaskAt(k, c, er, k1, y)) && (forall o: nat :: ObjAt(k, c, er, k1, o))
  }

  // ---------- one task alone ----------

  /** Only the record of `t` is another, and the places in queues, and who runs. */
  ghost predicate Alone(k: K, k1: K, t: nat, x: Task) {
    && t < |k.tsk| && k1.tsk == k.tsk[t := x] && k1.cnt == k.cnt && k1.own == k.own && k1.obj == k.obj && k1.ctx == k.ctx
  }

  lemma PlaceAlone(k: K, t: nat, x: Task, front: bool)
    requires t < |k.tsk|
    ensures Alone(k, Place(k, t, x, front), t, x)
  {
    PlaceMoved(k, t, x, front);
  }

  lemma ActTskFollows(k: K, t: nat)
    requires Inv(k)
    ensures var (k1, er) := ActTsk(k, t); Follows(k, CActTsk(t), er, k1)
  {
    var (k1, er) := ActTsk(k, t);
    if er == Ok && Tsk(k, t).stat.Dormant? { PlaceAlone(k, t, Tsk(k, t).(stat := Runnable), false); }
    forall y: nat ensures TaskAt(k, CActTsk(t), er, k1, y) {}
    forall o: nat ensures ObjAt(k, CActTsk(t), er, k1, o) {}
  }

  lemma RepriAlone(k: K, t: nat, p: nat)
    requires Inv(k) && ChgPri(k, t, p).1 == Ok
    ensures Alone(k, ChgPri(k, t, p).0, t, Tsk(k, t).(bpri := if p == 0 then Tsk(k, t).ipri else p - 1))
  {
    if !HoldsCeil(k, t) { ReplaceFacts(k, t, Tsk(k, t).(bpri := if p == 0 then Tsk(k, t).ipri else p - 1), false); }
  }

  lemma ChgPriFollows(k: K, t: nat, p: nat)
    requires Inv(k)
    ensures var (k1, er) := ChgPri(k, t, p); Follows(k, CChgPri(t, p), er, k1)
  {
    var (k1, er) := ChgPri(k, t, p);
    if er == Ok { RepriAlone(k, t, p); }
    forall y: nat ensures TaskAt(k, CChgPri(t, p), er, k1, y) {}
    forall o: nat ensures ObjAt(k, CChgPri(t, p), er, k1, o) {}
  }

  lemma BlockAlone(k: K, why: Reason, timed: bool)
    requires Inv(k) && k.run.Some?
    ensures Alone(k, Dispatch(Block(k, Self(k), why, timed)), Self(k), Asleep(Tsk(k, Self(k)), why, timed))
  {
    PlaceAlone(k, Self(k), Asleep(Tsk(k, Self(k)), why, timed), false);
  }

  lemma SlpTskFate(k: K, tmo: nat, er: ER, k1: K)
    requires if er == Blocked then k.run.Some? && Alone(k, k1, k.run.value, Asleep(Tsk(k, k.run.value), Sleep, tmo != TMO_FEVR))
             else if er == Ok then k.run.Some? && Alone(k, k1, k.run.value, Tsk(k, k.run.value).(wupque := false))
             else k1 == k
    ensures Follows(k, CSlpTsk(tmo), er, k1)
  {
    forall y: nat ensures TaskAt(k, CSlpTsk(tmo), er, k1, y) { SlpTskTells(k, tmo, er, y); }
    forall o: nat ensures ObjAt(k, CSlpTsk(tmo), er, k1, o) {}
  }

  lemma SlpTskTells(k: K, tmo: nat, er: ER, y: nat)
    ensures FateBy(k, CSlpTsk(tmo), er, y) ==
      if k.run == Some(y) && er == Blocked then Asleep(Tsk(k, y), Sleep, tmo != TMO_FEVR)
      else if k.run == Some(y) && er == Ok then Tsk(k, y).(wupque := false)
      else Tsk(k, y)
  {}

  lemma SlpTskFollows(k: K, tmo: nat)
    requires Inv(k) && (k.ctx || k.run.Some?)
    ensures var (k1, er) := SlpTsk(k, tmo); Follows(k, CSlpTsk(tmo), er, k1)
  {
    var (k1, er) := SlpTsk(k, tmo);
    if er == Blocked { BlockAlone(k, Sleep, tmo != TMO_FEVR); }
    assert TaskOk(Tsk(k, Self(k)));
    SlpTskFate(k, tmo, er, k1);
  }

  lemma DlyTskFate(k: K, d: nat, er: ER, k1: K)
    requires if er == Blocked then k.run.Some? && Alone(k, k1, k.run.value, Asleep(Tsk(k, k.run.value), Delay, true)) else k1 == k
    ensures Follows(k, CDlyTsk(d), er, k1)
  {
    forall y: nat ensures TaskAt(k, CDlyTsk(d), er, k1, y) {}
    forall o: nat ensures ObjAt(k, CDlyTsk(d), er, k1, o) {}
  }

  lemma DlyTskFollows(k: K, d: nat)
    requires Inv(k) && (k.ctx || k.run.Some?)
    ensures var (k1, er) := DlyTsk(k, d); Follows(k, CDlyTsk(d), er, k1)
  {
    var (k1, er) := DlyTsk(k, d);
    if er == Blocked { BlockAlone(k, Delay, true); }
    DlyTskFate(k, d, er, k1);
  }

  lemma WaiSemFate(k: K, o: nat, tmo: nat, er: ER, k1: K)
    requires if er == Blocked then k.run.Some? && Alone(k, k1, k.run.value, Asleep(Tsk(k, k.run.value), On(o), tmo != TMO_FEVR))
             else if er == Ok then o < |k.cnt| && k.cnt[o] >= 1 && k1 == k.(cnt := k.cnt[o := k.cnt[o] - 1])
             else k1 == k
    ensures Follows(k, CWaiSem(o, tmo), er, k1)
  {
    forall y: nat ensures TaskAt(k, CWaiSem(o, tmo), er, k1, y) { WaiSemTells(k, o, tmo, er, y); }
    forall p: nat ensures ObjAt(k, CWaiSem(o, tmo), er, k1, p) {}
  }

  lemma WaiSemTells(k: K, o: nat, tmo: nat, er: ER, y: nat)
    ensures FateBy(k, CWaiSem(o, tmo), er, y) ==
      if k.run == Some(y) && er == Blocked then Asleep(Tsk(k, y), On(o), tmo != TMO_FEVR) else Tsk(k, y)
  {}

  lemma WaiSemFollows(k: K, o: nat, tmo: nat)
    requires Inv(k) && (k.ctx || k.run.Some?)
    ensures var (k1, er) := WaiSem(k, o, tmo); Follows(k, CWaiSem(o, tmo), er, k1)
  {
    var (k1, er) := WaiSem(k, o, tmo);
    if er == Blocked { BlockAlone(k, On(o), tmo != TMO_FEVR); }
    assert IsSem(k.obj, o) ==> o < |k.cnt|;
    WaiSemFate(k, o, tmo, er, k1);
  }

  lemma PolSemFate(k: K, o: nat, er: ER, k1: K)
    requires if er == Ok then o < |k.cnt| && k.cnt[o] >= 1 && k1 == k.(cnt := k.cnt[o := k.cnt[o] - 1]) else k1 == k
    ensures Follows(k, CPolSem(o), er, k1)
  {
    forall y: nat ensures TaskAt(k, CPolSem(o), er, k1, y) { PolSemTells(k, o, er, y); }
    forall p: nat ensures ObjAt(k, CPolSem(o), er, k1, p) {}
  }

  lemma PolSemTells(k: K, o: nat, er: ER, y: nat)
    ensures FateBy(k, CPolSem(o), er, y) == Tsk(k, y)
  {}

  lemma PolSemFollows(k: K, o: nat)
    requires Inv(k)
    ensures var (k1, er) := PolSem(k, o); Follows(k, CPolSem(o), er, k1)
  {
    var (k1, er) := PolSem(k, o);
    assert IsSem(k.obj, o) ==> o < |k.cnt|;
    PolSemFate(k, o, er, k1);
  }

  lemma UnwaitAlone(k: K, t: nat, er: ER)
    requires Inv(k) && IsWaiting(k, t)
    ensures Alone(k, Resched(Unwait(k, t, er)), t, Woken(Tsk(k, t), er))
  {
    PlaceAlone(k, t, Woken(Tsk(k, t), er), false);
  }

  lemma HeadWaits(k: K, o: nat)
    requires Inv(k) && Que(k, o) != []
    ensures WaitsOn(k, Que(k, o)[0], o)
  {
    assert QueInv(k, o) && QueAt(k, o, Que(k, o)[0]);
  }

  lemma SigSemFate(k: K, o: nat, er: ER, k1: K)
    requires if er != Ok then k1 == k
             else if Que(k, o) == [] then o < |k.cnt| && k1 == k.(cnt := k.cnt[o := k.cnt[o] + 1])
             else IsSem(k.obj, o) && WaitsOn(k, Que(k, o)[0], o) && Alone(k, k1, Que(k, o)[0], Woken(Tsk(k, Que(k, o)[0]), Ok))
    requires er != Ok ==> !IsSem(k.obj, o) || Que(k, o) == []
    ensures Follows(k, CSigSem(o), er, k1)
  {
    forall y: nat ensures TaskAt(k, CSigSem(o), er, k1, y) { SigSemTells(k, o, er, y); }
    forall p: nat ensures ObjAt(k, CSigSem(o), er, k1, p) {}
  }

  lemma SigSemTells(k: K, o: nat, er: ER, y: nat)
    ensures FateBy(k, CSigSem(o), er, y) ==
      if IsWaiting(k, y) && IsSem(k.obj, o) && Que(k, o) != [] && Que(k, o)[0] == y then Woken(Tsk(k, y), Ok) else Tsk(k, y)
  {}

  lemma SigSemFollows(k: K, o: nat)
    requires Inv(k)
    ensures var (k1, er) := SigSem(k, o); Follows(k, CSigSem(o), er, k1)
  {
    var (k1, er) := SigSem(k, o);
    assert IsSem(k.obj, o) ==> o < |k.cnt|;
    if er == Ok && Que(k, o) != [] {
      HeadWaits(k, o);
      UnwaitAlone(k, Que(k, o)[0], Ok);
    }
    SigSemFate(k, o, er, k1);
  }

  lemma WupTskFate(k: K, t: nat, er: ER, k1: K)
    requires if IsWaiting(k, t) && Tsk(k, t).stat.why == Sleep then Alone(k, k1, t, Woken(Tsk(k, t), Ok))
             else if er == Ok then Alone(k, k1, t, Tsk(k, t).(wupque := true))
             else k1 == k
    ensures Follows(k, CWupTsk(t), er, k1)
  {
    forall y: nat ensures TaskAt(k, CWupTsk(t), er, k1, y) { WupTskTells(k, t, er, y); }
    forall o: nat ensures ObjAt(k, CWupTsk(t), er, k1, o) {}
  }

  lemma WupTskTells(k: K, t: nat, er: ER, y: nat)
    ensures FateBy(k, CWupTsk(t), er, y) ==
      if y == t && IsWaiting(k, y) && Tsk(k, y).stat.why == Sleep then Woken(Tsk(k, y), Ok)
      else if y == t && er == Ok then Tsk(k, y).(wupque := true)
      else Tsk(k, y)
  {}

  lemma WupTskFollows(k: K, t: nat)
    requires Inv(k)
    ensures var (k1, er) := WupTsk(k, t); Follows(k, CWupTsk(t), er, k1)
  {
    var (k1, er) := WupTsk(k, t);
    if er == Ok && IsWaiting(k, t) && Tsk(k, t).stat.why == Sleep { UnwaitAlone(k, t, Ok); }
    WupTskFate(k, t, er, k1);
  }

  lemma RelWaiFate(k: K, t: nat, er: ER, k1: K)
    requires if IsWaiting(k, t) then Alone(k, k1, t, Woken(Tsk(k, t), ERlwai)) else k1 == k
    ensures Follows(k, CRelWai(t), er, k1)
  {
    forall y: nat ensures TaskAt(k, CRelWai(t), er, k1, y) { RelWaiTells(k, t, er, y); }
    forall o: nat ensures ObjAt(k, CRelWai(t), er, k1, o) {}
  }

  lemma RelWaiTells(k: K, t: nat, er: ER, y: nat)
    ensures FateBy(k, CRelWai(t), er, y) == if y == t && IsWaiting(k, y) then Woken(Tsk(k, y), ERlwai) else Tsk(k, y)
  {}

  lemma RelWaiFollows(k: K, t: nat)
    requires Inv(k)
    ensures var (k1, er) := RelWai(k, t); Follows(k, CRelWai(t), er, k1)
  {
    var (k1, er) := RelWai(k, t);
    if er == Ok { UnwaitAlone(k, t, ERlwai); }
    RelWaiFate(k, t, er, k1);
  }

  lemma SusTskFate(k: K, t: nat, er: ER, k1: K)
    requires if er != Ok then k1 == k
             else Alone(k, k1, t, Tsk(k, t).(stat := if IsWaiting(k, t) then Waiting(Tsk(k, t).stat.why, true) else Suspended))
    ensures Follows(k, CSusTsk(t), er, k1)
  {
    forall y: nat ensures TaskAt(k, CSusTsk(t), er, k1, y) { SusTskTells(k, t, er, y); }
    forall o: nat ensures ObjAt(k, CSusTsk(t), er, k1, o) {}
  }

  lemma SusTskTells(k: K, t: nat, er: ER, y: nat)
    ensures FateBy(k, CSusTsk(t), er, y) ==
      if y == t && er == Ok then Tsk(k, y).(stat := if IsWaiting(k, y) then Waiting(Tsk(k, y).stat.why, true) else Suspended) else Tsk(k, y)
  {}

  lemma SusTskFollows(k: K, t: nat)
    requires Inv(k)
    ensures var (k1, er) := SusTsk(k, t); Follows(k, CSusTsk(t), er, k1)
  {
    var (k1, er) := SusTsk(k, t);
    if er == Ok && IsRunnable(k, t) { PlaceAlone(k, t, Tsk(k, t).(stat := Suspended), false); }
    SusTskFate(k, t, er, k1);
  }

  lemma RsmTskFate(k: K, t: nat, er: ER, k1: K)
    requires if er != Ok then k1 == k
             else Alone(k, k1, t, Tsk(k, t).(stat := if IsWaiting(k, t) then Waiting(Tsk(k, t).stat.why, false) else Runnable))
    ensures Follows(k, CRsmTsk(t), er, k1)
  {
    forall y: nat ensures TaskAt(k, CRsmTsk(t), er, k1, y) { RsmTskTells(k, t, er, y); }
    forall o: nat ensures ObjAt(k, CRsmTsk(t), er, k1, o) {}
  }

  lemma RsmTskTells(k: K, t: nat, er: ER, y: nat)
    ensures FateBy(k, CRsmTsk(t), er, y) ==
      if y == t && er == Ok then Tsk(k, y).(stat := if IsWaiting(k, y) then Waiting(Tsk(k, y).stat.why, false) else Runnable) else Tsk(k, y)
  {}

  lemma RsmTskFollows(k: K, t: nat)
    requires Inv(k)
    ensures var (k1, er) := RsmTsk(k, t); Follows(k, CRsmTsk(t), er, k1)
  {
    var (k1, er) := RsmTsk(k, t);
    if er == Ok && Tsk(k, t).stat.Suspended? { PlaceAlone(k, t, Tsk(k, t).(stat := Runnable), false); }
    RsmTskFate(k, t, er, k1);
  }

  lemma DisTerFollows(k: K)
    requires Inv(k) && (k.ctx || k.run.Some?)
    ensures var (k1, er) := DisTer(k); Follows(k, CDisTer, er, k1)
  {
    var (k1, er) := DisTer(k);
    forall y: nat ensures TaskAt(k, CDisTer, er, k1, y) {}
    forall o: nat ensures ObjAt(k, CDisTer, er, k1, o) {}
  }

  lemma RotateMovesOnly(k: K, q: nat)
    requires Inv(k)
    ensures Rotate(k, q).tsk == k.tsk && Rotate(k, q) == k.(ready := Rotate(k, q).ready, wq := Rotate(k, q).wq, tsk := k.tsk)
  {
    var i := Slot(Pris(k), k.ready, q, true);
    if i < |k.ready| && At(Pris(k), k.ready[i]) == q {
      var t := k.ready[i];
      assert t in k.ready && ReadyAt(k, t);
      PlaceMoved(k, t, Tsk(k, t), false);
    }
  }

  lemma RotRdqFate(k: K, p: nat, er: ER, k1: K)
    requires k1.tsk == k.tsk && k1.cnt == k.cnt && k1.own == k.own && k1.obj == k.obj && k1.ctx == k.ctx
    ensures Follows(k, CRotRdq(p), er, k1)
  {
    forall y: nat ensures TaskAt(k, CRotRdq(p), er, k1, y) {}
    forall o: nat ensures ObjAt(k, CRotRdq(p), er, k1, o) {}
  }

  lemma RotRdqFollows(k: K, p: nat)
    requires Inv(k)
    ensures var (k1, er) := RotRdq(k, p); Follows(k, CRotRdq(p), er, k1)
  {
    var (k1, er) := RotRdq(k, p);
    RotateMovesOnly(k, if p == 0 then Tsk(k, Self(k)).bpri else if p <= TNUM_TPRI then p - 1 else 0);
    RotRdqFate(k, p, er, k1);
  }

  // ---------- mutexes ----------

  /** A record with other locks, and the place that goes with it. */
  lemma RelockAlone(k: K, t: nat, locks: seq<nat>)
    requires WellFormed(k) && ReadyInv(k) && WaitInv(k) && t < |k.tsk|
    ensures Alone(k, Relock(k, t, locks), t, Tsk(k, t).(locks := locks))
  {
    RelockFacts(k, t, locks);
  }

  /** Another owner of a mutex disturbs no queue. */
  lemma OwnerSet(k: K, m: nat, x: Option<nat>)
    requires Inv(k)
    ensures var s := SetOwn(k, m, x); WellFormed(s) && ReadyInv(s) && WaitInv(s)
  {
    var s := SetOwn(k, m, x);
    OwnQueues(k, m, x);
    forall y: nat ensures PriOk(s, y) { assert PriOk(k, y); }
    forall o: nat ensures ObjOk(s, o) { assert ObjOk(k, o); }
  }

  lemma AcquireIs(k: K, m: nat)
    requires Inv(k) && k.run.Some?
    ensures var t, k1 := Self(k), Acquire(k, Self(k), m);
      && k1.tsk == k.tsk[t := Tsk(k, t).(locks := Tsk(k, t).locks + [m])] && k1.own == SetOwn(k, m, Some(t)).own
      && k1.cnt == k.cnt && k1.obj == k.obj && k1.ctx == k.ctx
  {
    var t := Self(k);
    OwnerSet(k, m, Some(t));
    RelockAlone(SetOwn(k, m, Some(t)), t, Tsk(k, t).locks + [m]);
  }

  lemma AcquireFollows(k: K, c: Call, er: ER, m: nat, k1: K)
    requires Inv(k) && k.run.Some? && IsMtx(k.obj, m) && Own(k, m) == None && k1 == Acquire(k, Self(k), m)
    requires (c == CPlocMtx(m) || (c.CLocMtx? && c.m == m)) && er == Ok
    ensures Follows(k, c, er, k1)
  {
    AcquireIs(k, m);
    LockedFate(k, c, er, m, k1);
  }

  lemma LockedFate(k: K, c: Call, er: ER, m: nat, k1: K)
    requires k.run.Some? && k.run.value < |k.tsk| && m < |k.own| && Own(k, m) == None
    requires (c == CPlocMtx(m) || (c.CLocMtx? && c.m == m)) && er == Ok
    requires k1.tsk == k.tsk[k.run.value := Tsk(k, k.run.value).(locks := Tsk(k, k.run.value).locks + [m])]
    requires k1.own == k.own[m := k.run] && k1.cnt == k.cnt && k1.obj == k.obj && k1.ctx == k.ctx
    ensures Follows(k, c, er, k1)
  {
    forall y: nat ensures TaskAt(k, c, er, k1, y) {}
    forall o: nat ensures ObjAt(k, c, er, k1, o) {}
  }

  lemma LocMtxFollows(k: K, m: nat, tmo: nat)
    requires Inv(k) && (k.ctx || k.run.Some?)
    ensures var (k1, er) := LocMtx(k, m, tmo); Follows(k, CLocMtx(m, tmo), er, k1)
  {
    var (k1, er) := LocMtx(k, m, tmo);
    if er == Ok {
      AcquireFollows(k, CLocMtx(m, tmo), er, m, k1);
    } else {
      if er == Blocked { BlockAlone(k, On(m), tmo != TMO_FEVR); }
      NotLockedFate(k, m, tmo, er, k1);
    }
  }

  lemma NotLockedFate(k: K, m: nat, tmo: nat, er: ER, k1: K)
    requires er != Ok
    requires if er == Blocked then k.run.Some? && Alone(k, k1, k.run.value, Asleep(Tsk(k, k.run.value), On(m), tmo != TMO_FEVR)) else k1 == k
    ensures Follows(k, CLocMtx(m, tmo), er, k1)
  {
    forall y: nat ensures TaskAt(k, CLocMtx(m, tmo), er, k1, y) { NotLockedTells(k, m, tmo, er, y); }
    forall o: nat ensures ObjAt(k, CLocMtx(m, tmo), er, k1, o) {}
  }

  lemma NotLockedTells(k: K, m: nat, tmo: nat, er: ER, y: nat)
    requires er != Ok
    ensures FateBy(k, CLocMtx(m, tmo), er, y) == if k.run == Some(y) && er == Blocked then Asleep(Tsk(k, y), On(m), tmo != TMO_FEVR) else Tsk(k, y)
  {}

  lemma PlocMtxFollows(k: K, m: nat)
    requires Inv(k) && (k.ctx || k.run.Some?)
    ensures var (k1, er) := PlocMtx(k, m); Follows(k, CPlocMtx(m), er, k1)
  {
    var (k1, er) := PlocMtx(k, m);
    if er == Ok {
      AcquireFollows(k, CPlocMtx(m), er, m, k1);
    } else {
      forall y: nat ensures TaskAt(k, CPlocMtx(m), er, k1, y) {}
      forall o: nat ensures ObjAt(k, CPlocMtx(m), er, k1, o) {}
    }
  }

  /** Taking away the latest of the locks. */
  lemma LatestLeaves(locks: seq<nat>)
    requires NoDup(locks) && locks != []
    ensures Remove(locks, locks[|locks| - 1]) == locks[..|locks| - 1]
  {
    var n := |locks| - 1;
    forall i | 0 <= i < n ensures locks[i] != locks[n] { assert Apart(locks, i, n); }
    assert IndexOf(locks, locks[n]) == n;
  }

  /** What one task is after the hand-over of mutex `m`. */
  function HeirFate(s: K, m: nat, y: nat): Task {
    if Que(s, m) != [] && Que(s, m)[0] == y && IsWaiting(s, y) then Woken(Tsk(s, y), Ok).(locks := Tsk(s, y).locks + [m])
    else Tsk(s, y)
  }

  lemma ReleaseFates(s: K, m: nat)
    requires WellFormed(s) && WaitInv(s) && m < |s.own|
    ensures var s1 := Release(s, m);
      && s1 == s.(tsk := s1.tsk, own := s1.own, wq := s1.wq, ready := s1.ready)
      && |s1.tsk| == |s.tsk| && |s1.own| == |s.own|
      && (forall y: nat :: Tsk(s1, y) == HeirFate(s, m, y))
      && (forall o: nat :: Own(s1, o) == if o != m then Own(s, o) else if Que(s, m) == [] then None else Some(Que(s, m)[0]))
      && (forall o: nat :: o != m ==> Que(s1, o) == Que(s, o))
  {
    if Que(s, m) != [] {
      var w := Que(s, m)[0];
      var x := Heir(s, w, m);
      assert QueInv(s, m) && QueAt(s, m, w);
      PlaceMoved(s, w, x, false);
      forall o: nat | o != m ensures Que(Place(s, w, x, false), o) == Que(s, o) { OtherQueueStays(s, w, x, o); }
    }
  }

  /** A task that is not in a queue, and goes to none, leaves that queue alone. */
  lemma OtherQueueStays(s: K, w: nat, x: Task, o: nat)
    requires w < |s.tsk| && !WaitsOn(s, w, o) && !(x.stat.Waiting? && x.stat.why == On(o))
    ensures Que(Place(s, w, x, false), o) == Que(s, o)
  {
    OtherQueue(s, w, o);
    LeaveShape(s, w);
    JoinQueIs(SetTsk(Leave(s, w), w, x), w, false, o);
  }

  lemma UnlMtxFollows(k: K, m: nat)
    requires Inv(k) && (k.ctx || k.run.Some?)
    ensures var (k1, er) := UnlMtx(k, m); Follows(k, CUnlMtx(m), er, k1)
  {
    var (k1, er) := UnlMtx(k, m);
    if er == Ok { UnlockFollows(k, m); } else { NotUnlockedFate(k, m, er); }
  }

  lemma NotUnlockedFate(k: K, m: nat, er: ER)
    requires er != Ok
    ensures Follows(k, CUnlMtx(m), er, k)
  {
    forall y: nat ensures TaskAt(k, CUnlMtx(m), er, k, y) {}
    forall o: nat ensures ObjAt(k, CUnlMtx(m), er, k, o) {}
  }

  lemma UnlockFollows(k: K, m: nat)
    requires Inv(k) && k.run.Some? && UnlMtx(k, m).1 == Ok
    ensures var (k1, er) := UnlMtx(k, m); Follows(k, CUnlMtx(m), er, k1)
  {
    var t, k1 := Self(k), UnlMtx(k, m).0;
    var s := Relock(k, t, Remove(Tsk(k, t).locks, m));
    DropIs(k, t, m);
    ReleaseFates(s, m);
    assert k1 == Dispatch(Release(s, m));
    if Que(k, m) != [] { HeadWaits(k, m); }
    UnlockedFate(k, s, t, m, k1);
  }

  /** The caller without its latest lock. */
  lemma DropIs(k: K, t: nat, m: nat)
    requires Inv(k) && k.run == Some(t) && UnlMtx(k, m).1 == Ok
    ensures var s := Relock(k, t, Remove(Tsk(k, t).locks, m));
      && Alone(k, s, t, Tsk(k, t).(locks := Tsk(k, t).locks[..|Tsk(k, t).locks| - 1]))
      && WellFormed(s) && WaitInv(s) && m < |s.own| && IsRunnable(k, t) && Own(k, m) == Some(t)
      && forall o: nat :: Que(s, o) == Que(k, o)
  {
    var locks := Tsk(k, t).locks;
    assert LocksAt(k, t, None) && ReadyAt(k, t) && LockAt(k, t, m, None);
    LatestLeaves(locks);
    RelockFacts(k, t, Remove(locks, m));
    DropCore(k, t, m);
    forall o: nat ensures Que(Relock(k, t, Remove(locks, m)), o) == Que(k, o) { RunnerKeepsQueues(k, t, Remove(locks, m), o); }
  }

  /** The fates that unlocking decides. */
  lemma UnlockFates(k: K, t: nat, m: nat, y: nat)
    requires k.run == Some(t) && IsRunnable(k, t) && Own(k, m) == Some(t) && Tsk(k, t).locks != []
    requires Que(k, m) != [] ==> WaitsOn(k, Que(k, m)[0], m)
    ensures FateBy(k, CUnlMtx(m), Ok, y) ==
      if y == t then Tsk(k, t).(locks := Tsk(k, t).locks[..|Tsk(k, t).locks| - 1]) else HeirFate(k, m, y)
  {}

  lemma UnlockedFate(k: K, s: K, t: nat, m: nat, k1: K)
    requires k.run == Some(t) && IsRunnable(k, t) && Own(k, m) == Some(t) && Tsk(k, t).locks != []
    requires Alone(k, s, t, Tsk(k, t).(locks := Tsk(k, t).locks[..|Tsk(k, t).locks| - 1]))
    requires Que(k, m) != [] ==> WaitsOn(k, Que(k, m)[0], m)
    requires Que(s, m) == Que(k, m) && |k1.tsk| == |s.tsk| && k1.obj == s.obj && k1.ctx == s.ctx && k1.cnt == s.cnt
    requires forall y: nat :: Tsk(k1, y) == HeirFate(s, m, y)
    requires forall o: nat :: Own(k1, o) == if o != m then Own(s, o) else if Que(s, m) == [] then None else Some(Que(s, m)[0])
    ensures Follows(k, CUnlMtx(m), Ok, k1)
  {
    forall y: nat ensures TaskAt(k, CUnlMtx(m), Ok, k1, y) {
      UnlockFates(k, t, m, y);
      assert Tsk(k1, y) == HeirFate(s, m, y);
    }
    forall o: nat ensures ObjAt(k, CUnlMtx(m), Ok, k1, o) { assert Own(k1, o) == OwnBy(k, CUnlMtx(m), Ok, o); }
  }

  /** A runnable task that gets other locks moves in no wait queue. */
  lemma RunnerKeepsQueues(k: K, t: nat, locks: seq<nat>, o: nat)
    requires IsRunnable(k, t)
    ensures Que(Relock(k, t, locks), o) == Que(k, o)
  {
    var x := Tsk(k, t).(locks := locks);
    OtherQueue(k, t, o);
    LeaveShape(k, t);
    JoinQueIs(SetTsk(Leave(k, t), t, x), t, true, o);
  }

  // ---------- whole queues ----------

  ghost predicate ReleasedAt(s: K, s1: K, q: seq<nat>, er: ER, y: nat) {
    Tsk(s1, y) == if y in q && IsWaiting(s, y) then Woken(Tsk(s, y), er) else Tsk(s, y)
  }

  lemma {:induction false} UnwaitAllFates(s: K, o: nat, q: seq<nat>, er: ER)
    requires Core(s, None, None) && q == Que(s, o)
    ensures var s1 := UnwaitAll(s, q, er);
      && |s1.tsk| == |s.tsk| && s1.obj == s.obj && s1.ctx == s.ctx
      && forall y: nat :: ReleasedAt(s, s1, q, er, y)
    decreases |q|
  {
    if q != [] {
      var w := q[0];
      var s1, s2 := Unwait(s, w, er), UnwaitAll(s, q, er);
      UnwaitHead(s, o, er);
      UnwaitAllFates(s1, o, q[1..], er);
      assert QueInv(s, o) && QueAt(s, o, w);
      PlaceMoved(s, w, Released(Tsk(s, w), er), false);
      HeadOnce(q);
      forall y: nat ensures ReleasedAt(s, s2, q, er, y) {
        assert ReleasedAt(s1, s2, q[1..], er, y);
        assert y in q <==> y == w || y in q[1..];
      }
    }
  }

  lemma HeadOnce(q: seq<nat>)
    requires NoDup(q) && q != []
    ensures q[0] !in q[1..]
  {
    forall i | 1 <= i < |q| ensures q[i] != q[0] { assert Apart(q, 0, i); }
  }

  /** What one task is after all of the queue of object `o` has been released. */
  ghost predicate ClearedAt(k: K, s: K, o: nat, y: nat) {
    Tsk(s, y) == if WaitsOn(k, y, o) then Woken(Tsk(k, y), EDlt) else Tsk(k, y)
  }

  lemma ClearedOut(k: K, o: nat)
    requires Inv(k)
    ensures var s := UnwaitAll(k, Que(k, o), EDlt);
      && Core(s, None, None) && |s.tsk| == |k.tsk| && s.obj == k.obj && s.ctx == k.ctx && s.cnt == k.cnt && s.own == k.own
      && forall y: nat :: ClearedAt(k, s, o, y)
  {
    var s := UnwaitAll(k, Que(k, o), EDlt);
    UnwaitAllFates(k, o, Que(k, o), EDlt);
    UnwaitAllCore(k, o, Que(k, o), EDlt);
    assert QueInv(k, o);
    forall y: nat ensures ClearedAt(k, s, o, y) { assert ReleasedAt(k, s, Que(k, o), EDlt, y) && QueAt(k, o, y); }
  }

  lemma IniSemFollows(k: K, o: nat)
    requires Inv(k)
    ensures var (k1, er) := IniSem(k, o); Follows(k, CIniSem(o), er, k1)
  {
    var (k1, er) := IniSem(k, o);
    if er != Ok {
      forall y: nat ensures TaskAt(k, CIniSem(o), er, k1, y) {}
      forall o: nat ensures ObjAt(k, CIniSem(o), er, k1, o) {}
    } else {
      ClearedOut(k, o);
      InitedFollows(k, UnwaitAll(k, Que(k, o), EDlt), o, k1);
    }
  }

  lemma IniSemFates(k: K, o: nat, y: nat)
    ensures FateBy(k, CIniSem(o), Ok, y) == if WaitsOn(k, y, o) then Woken(Tsk(k, y), EDlt) else Tsk(k, y)
  {}

  lemma InitedFollows(k: K, s: K, o: nat, k1: K)
    requires Inv(k) && IsSem(k.obj, o) && (forall y: nat :: ClearedAt(k, s, o, y))
    requires |s.tsk| == |k.tsk| && s.obj == k.obj && s.ctx == k.ctx && s.cnt == k.cnt && s.own == k.own
    requires k1 == Dispatch(SetCnt(s, o, s.obj[o].init))
    ensures Follows(k, CIniSem(o), Ok, k1)
  {
    forall y: nat ensures TaskAt(k, CIniSem(o), Ok, k1, y) {
      IniSemFates(k, o, y);
      assert ClearedAt(k, s, o, y) && Tsk(k1, y) == Tsk(s, y);
    }
    forall p: nat ensures ObjAt(k, CIniSem(o), Ok, k1, p) {}
  }

  lemma IniMtxFollows(k: K, m: nat)
    requires Inv(k)
    ensures var (k1, er) := IniMtx(k, m); Follows(k, CIniMtx(m), er, k1)
  {
    var (k1, er) := IniMtx(k, m);
    if er != Ok {
      forall y: nat ensures TaskAt(k, CIniMtx(m), er, k1, y) {}
      forall o: nat ensures ObjAt(k, CIniMtx(m), er, k1, o) {}
    } else {
      ClearedOut(k, m);
      var s := UnwaitAll(k, Que(k, m), EDlt);
      if Own(s, m).Some? {
        var h := Own(s, m).value;
        assert OwnAt(s, m, None);
        RelockAlone(s, h, Remove(Tsk(s, h).locks, m));
        TakenFollows(k, s, Relock(s, h, Remove(Tsk(s, h).locks, m)), m, k1);
      } else {
        TakenFollows(k, s, s, m, k1);
      }
    }
  }

  lemma OwnerWaitsNot(k: K, m: nat)
    requires Inv(k)
    ensures Own(k, m).Some? ==> !WaitsOn(k, Own(k, m).value, m)
  {
    if Own(k, m).Some? { assert QueInv(k, m) && QueAt(k, m, Own(k, m).value) && CondAt(k, m) && OwnAt(k, m, None); }
  }

  lemma IniMtxFates(k: K, m: nat, y: nat)
    requires Own(k, m) == Some(y) ==> !WaitsOn(k, y, m)
    ensures FateBy(k, CIniMtx(m), Ok, y) ==
      if WaitsOn(k, y, m) then Woken(Tsk(k, y), EDlt)
      else if Own(k, m) == Some(y) then Tsk(k, y).(locks := Remove(Tsk(k, y).locks, m))
      else Tsk(k, y)
  {}

  /** `s` without the waiters, `s2` without the owner's lock, too. */
  lemma TakenFollows(k: K, s: K, s2: K, m: nat, k1: K)
    requires Inv(k) && IsMtx(k.obj, m) && (forall y: nat :: ClearedAt(k, s, m, y))
    requires |s.tsk| == |k.tsk| && s.obj == k.obj && s.ctx == k.ctx && s.cnt == k.cnt && s.own == k.own
    requires if Own(s, m).Some? then Alone(s, s2, Own(s, m).value, Tsk(s, Own(s, m).value).(locks := Remove(Tsk(s, Own(s, m).value).locks, m)))
             else s2 == s
    requires k1 == Dispatch(SetOwn(s2, m, None))
    ensures Follows(k, CIniMtx(m), Ok, k1)
  {
    OwnerWaitsNot(k, m);
    forall y: nat ensures TaskAt(k, CIniMtx(m), Ok, k1, y) {
      IniMtxFates(k, m, y);
      assert ClearedAt(k, s, m, y) && Tsk(k1, y) == Tsk(s2, y);
    }
    forall p: nat ensures ObjAt(k, CIniMtx(m), Ok, k1, p) { assert Own(k1, p) == if p == m then None else Own(k, p); }
  }

  // ---------- the end of a task ----------

  /** Of the tasks waiting for the mutexes `locks`, those at the heads of the queues get them. */
  function LegacyFate(s: K, locks: seq<nat>, y: nat): Task {
    var x := Tsk(s, y);
    if x.stat.Waiting? && x.stat.why.On? && x.stat.why.obj in locks && Que(s, x.stat.why.obj) != [] && Que(s, x.stat.why.obj)[0] == y
    then Woken(x, Ok).(locks := x.locks + [x.stat.why.obj])
    else x
  }

  function LegacyOwner(s: K, locks: seq<nat>, o: nat): Option<nat> {
    if o !in locks then Own(s, o) else if Que(s, o) == [] then None else Some(Que(s, o)[0])
  }

  ghost predicate LegacyAt(s: K, s1: K, locks: seq<nat>, y: nat) { Tsk(s1, y) == LegacyFate(s, locks, y) }

  ghost predicate PassedAt(s: K, s1: K, locks: seq<nat>, o: nat) { Own(s1, o) == LegacyOwner(s, locks, o) }

  lemma {:induction false} ReleaseAllFates(s: K, t: nat, locks: seq<nat>)
    requires Core(s, Some(t), None) && t < |s.tsk| && Tsk(s, t).stat.Dormant? && Tsk(s, t).locks == locks
    ensures var s1 := ReleaseAll(s, t, locks);
      && s1.cnt == s.cnt && s1.obj == s.obj
      && (forall y: nat :: y != t ==> LegacyAt(s, s1, locks, y)) && (forall o: nat :: PassedAt(s, s1, locks, o))
    decreases |locks|
  {
    if locks == [] {
      forall y: nat | y != t ensures LegacyAt(s, s, locks, y) {}
      forall o: nat ensures PassedAt(s, s, locks, o) {}
    } else {
      var n := |locks| - 1;
      var m := locks[n];
      var s1 := SetTsk(s, t, Tsk(s, t).(locks := locks[..n]));
      ShedCore(s, t);
      assert LockAt(s, t, m, None) && OwnAt(s, m, None) && LocksAt(s, t, Some(t));
      assert QueInv(s1, m) && QueAt(s1, m, t);
      ReleaseCore(s1, m, Some(t));
      ReleaseFates(s1, m);
      var s2 := Release(s1, m);
      ReleaseAllFates(s2, t, locks[..n]);
      var s3 := ReleaseAll(s, t, locks);
      LastNotEarlier(locks);
      forall y: nat | y != t ensures LegacyAt(s, s3, locks, y) {
        assert LegacyAt(s2, s3, locks[..n], y);
        LegacyStep(s, s1, s2, t, locks, y);
      }
      forall o: nat ensures PassedAt(s, s3, locks, o) { assert PassedAt(s2, s3, locks[..n], o); }
    }
  }

  lemma LastNotEarlier(locks: seq<nat>)
    requires NoDup(locks) && locks != []
    ensures var n := |locks| - 1; locks[n] !in locks[..n] && forall o :: o in locks <==> o == locks[n] || o in locks[..n]
  {
    var n := |locks| - 1;
    assert locks == locks[..n] + [locks[n]];
    forall i | 0 <= i < n ensures locks[i] != locks[n] { assert Apart(locks, i, n); }
  }

  lemma LegacyStep(s: K, s1: K, s2: K, t: nat, locks: seq<nat>, y: nat)
    requires locks != [] && y != t && t < |s.tsk|
    requires var n := |locks| - 1;
      && s1 == SetTsk(s, t, Tsk(s, t).(locks := locks[..n]))
      && locks[n] !in locks[..n] && (forall o :: o in locks <==> o == locks[n] || o in locks[..n])
      && Tsk(s2, y) == HeirFate(s1, locks[n], y) && (forall o: nat :: o != locks[n] ==> Que(s2, o) == Que(s1, o))
      && QueInv(s, locks[n])
    ensures LegacyFate(s2, locks[..|locks| - 1], y) == LegacyFate(s, locks, y)
  {
    var m := locks[|locks| - 1];
    if Que(s, m) != [] { assert QueAt(s, m, Que(s, m)[0]); }
  }

  /** The end of task `t`: its record, those of its heirs, and the owners of what it had locked. */
  ghost predicate Over(s: K, s1: K, t: nat) {
    && |s1.tsk| == |s.tsk| && s1.obj == s.obj && s1.ctx == s.ctx && s1.cnt == s.cnt
    && Tsk(s1, t) == Renewed(Tsk(s, t))
    && (forall y: nat :: y != t ==> LegacyAt(s, s1, Tsk(s, t).locks, y))
    && (forall o: nat :: PassedAt(s, s1, Tsk(s, t).locks, o))
  }

  lemma OwnQueue(s: K, t: nat, o: nat)
    requires Core(s, None, None) && o in Tsk(s, t).locks
    ensures !WaitsOn(s, t, o)
  {
    assert LockAt(s, t, o, None) && OwnAt(s, o, None) && QueInv(s, o) && QueAt(s, o, t) && CondAt(s, o);
  }

  lemma EndedLegacy(s: K, s1: K, t: nat, y: nat)
    requires y != t && Tsk(s1, y) == Tsk(s, y) && forall o :: o in Tsk(s, t).locks ==> Que(s1, o) == Que(s, o)
    ensures LegacyFate(s1, Tsk(s, t).locks, y) == LegacyFate(s, Tsk(s, t).locks, y)
  {}

  /** The first half: dormant and without locks. */
  lemma ExpiredFates(s: K, t: nat)
    requires Core(s, None, None) && t < |s.tsk|
    ensures var s2 := ReleaseAll(Place(s, t, Ended(Tsk(s, t)), false), t, Tsk(s, t).locks);
      && Core(s2, None, None) && |s2.tsk| == |s.tsk| && s2.obj == s.obj && s2.ctx == s.ctx && s2.cnt == s.cnt
      && Tsk(s2, t) == Ended(Tsk(s, t)).(locks := [])
      && (forall y: nat :: y != t ==> LegacyAt(s, s2, Tsk(s, t).locks, y))
      && (forall o: nat :: PassedAt(s, s2, Tsk(s, t).locks, o))
  {
    var x, locks := Ended(Tsk(s, t)), Tsk(s, t).locks;
    FitsSelf(s, t, None, None);
    CoreEnding(s, t);
    PlaceCore(s, t, x, false, Some(t), None);
    var s1 := Place(s, t, x, false);
    forall o | o in locks ensures Que(s1, o) == Que(s, o) {
      OwnQueue(s, t, o);
      OtherQueueStays(s, t, x, o);
    }
    ReleaseAllCore(s1, t, locks);
    ReleaseAllFates(s1, t, locks);
    var s2 := ReleaseAll(s1, t, locks);
    forall y: nat | y != t ensures LegacyAt(s, s2, locks, y) {
      assert LegacyAt(s1, s2, locks, y);
      EndedLegacy(s, s1, t, y);
    }
    forall o: nat ensures PassedAt(s, s2, locks, o) { assert PassedAt(s1, s2, locks, o); }
  }

  lemma TerminateFates(s: K, t: nat)
    requires Core(s, None, None) && t < |s.tsk|
    ensures Over(s, Terminate(s, t), t)
  {
    ExpiredFates(s, t);
    var s2 := ReleaseAll(Place(s, t, Ended(Tsk(s, t)), false), t, Tsk(s, t).locks);
    var s3 := Terminate(s, t);
    if Tsk(s2, t).actque {
      PlaceMoved(SetTsk(s2, t, Tsk(s2, t).(actque := false)), t, Tsk(s2, t).(actque := false, stat := Runnable), false);
    }
    forall y: nat | y != t ensures LegacyAt(s, s3, Tsk(s, t).locks, y) { assert LegacyAt(s, s2, Tsk(s, t).locks, y); }
    forall o: nat ensures PassedAt(s, s3, Tsk(s, t).locks, o) { assert PassedAt(s, s2, Tsk(s, t).locks, o); }
  }

  /** A call that is the end of task `t` and does nothing else to tasks and objects. */
  lemma EndFollows(k: K, c: Call, t: nat, k1: K)
    requires Inv(k) && Over(k, k1, t) && t < |k.tsk| && Tsk(k, t).stat != Dormant
    requires c.CTerTsk? || c.CRasTer? || c.CExtTsk? || c.CEnaTer? || c.CEnaDsp? || c.CChgIpm?
    requires forall y: nat :: EndsBy(k, c, Ok, y) <==> y == t
    ensures Follows(k, c, Ok, k1)
  {
    forall m: nat ensures m in Tsk(k, t).locks <==> Own(k, m) == Some(t) { assert LockAt(k, t, m, None) && OwnAt(k, m, None); }
    forall y: nat ensures TaskAt(k, c, Ok, k1, y) {
      if y == t { EndedFate(k, c, t, k1); } else { LegacyIsFate(k, c, t, k1, y); }
    }
    forall o: nat ensures ObjAt(k, c, Ok, k1, o) {
      assert PassedAt(k, k1, Tsk(k, t).locks, o);
      LegacyIsOwner(k, c, t, o);
    }
  }

  lemma EndedFate(k: K, c: Call, t: nat, k1: K)
    requires EndsBy(k, c, Ok, t) && Tsk(k1, t) == Renewed(Tsk(k, t))
    ensures TaskAt(k, c, Ok, k1, t)
  {}

  lemma LegacyIsOwner(k: K, c: Call, t: nat, o: nat)
    requires c.CTerTsk? || c.CRasTer? || c.CExtTsk? || c.CEnaTer? || c.CEnaDsp? || c.CChgIpm?
    requires (forall y: nat :: EndsBy(k, c, Ok, y) <==> y == t) && (o in Tsk(k, t).locks <==> Own(k, o) == Some(t))
    ensures OwnBy(k, c, Ok, o) == LegacyOwner(k, Tsk(k, t).locks, o)
  {}

  lemma LegacyIsFate(k: K, c: Call, t: nat, k1: K, y: nat)
    requires y != t && LegacyAt(k, k1, Tsk(k, t).locks, y)
    requires c.CTerTsk? || c.CRasTer? || c.CExtTsk? || c.CEnaTer? || c.CEnaDsp? || c.CChgIpm?
    requires (forall u: nat :: EndsBy(k, c, Ok, u) <==> u == t) && (forall m: nat :: m in Tsk(k, t).locks <==> Own(k, m) == Some(t))
    ensures TaskAt(k, c, Ok, k1, y)
  {
    var x := Tsk(k, y);
    assert EndsBy(k, c, Ok, t) && !EndsBy(k, c, Ok, y);
    EndingTells(k, c, y);
    if x.stat.Waiting? && x.stat.why.On? {
      assert LetsGo(k, c, Ok, x.stat.why.obj) <==> x.stat.why.obj in Tsk(k, t).locks;
    }
    assert LegacyFate(k, Tsk(k, t).locks, y) == FateBy(k, c, Ok, y);
  }

  /** A call that ends a task means nothing to the others, apart from what they inherit. */
  lemma EndingTells(k: K, c: Call, y: nat)
    requires c.CTerTsk? || c.CRasTer? || c.CExtTsk? || c.CEnaTer? || c.CEnaDsp? || c.CChgIpm?
    requires !EndsBy(k, c, Ok, y) && (c.CRasTer? ==> c.t != y) && (c.CEnaTer? ==> k.run != Some(y))
    ensures FateBy(k, c, Ok, y) ==
      if Inherits(k, c, Ok, y) then Woken(Tsk(k, y), Ok).(locks := Tsk(k, y).locks + [Tsk(k, y).stat.why.obj]) else Tsk(k, y)
  {
    EndingReleases(k, c, y);
    EndingLocks(k, c, y);
  }

  lemma EndingReleases(k: K, c: Call, y: nat)
    requires c.CTerTsk? || c.CRasTer? || c.CExtTsk? || c.CEnaTer? || c.CEnaDsp? || c.CChgIpm?
    requires !EndsBy(k, c, Ok, y) && (c.CRasTer? ==> c.t != y)
    ensures StatBy(k, c, Ok, y) == if Inherits(k, c, Ok, y) then Woken(Tsk(k, y), Ok).stat else Tsk(k, y).stat
    ensures WinfoBy(k, c, Ok, y) == if Inherits(k, c, Ok, y) then Result(Ok) else Tsk(k, y).winfo
  {
    assert Verdict(k, c, Ok, y) == None;
  }

  lemma EndingLocks(k: K, c: Call, y: nat)
    requires c.CTerTsk? || c.CRasTer? || c.CExtTsk? || c.CEnaTer? || c.CEnaDsp? || c.CChgIpm?
    requires !EndsBy(k, c, Ok, y)
    ensures LocksBy(k, c, Ok, y) == if Inherits(k, c, Ok, y) then Tsk(k, y).locks + [Tsk(k, y).stat.why.obj] else Tsk(k, y).locks
  {}

  lemma TerTskFollows(k: K, t: nat)
    requires Inv(k)
    ensures var (k1, er) := TerTsk(k, t); Follows(k, CTerTsk(t), er, k1)
  {
    var (k1, er) := TerTsk(k, t);
    if er != Ok {
      RefusedFate(k, CTerTsk(t), er);
    } else {
      TerminateFates(k, t);
      OverLater(k, Terminate(k, t), t, k1);
      EndFollows(k, CTerTsk(t), t, k1);
    }
  }

  /** A dispatch changes no task and no object. */
  lemma OverLater(s: K, s1: K, t: nat, k1: K)
    requires Over(s, s1, t) && k1 == s1.(run := k1.run)
    ensures Over(s, k1, t)
  {
    forall y: nat | y != t ensures LegacyAt(s, k1, Tsk(s, t).locks, y) { assert LegacyAt(s, s1, Tsk(s, t).locks, y); }
    forall o: nat ensures PassedAt(s, k1, Tsk(s, t).locks, o) { assert PassedAt(s, s1, Tsk(s, t).locks, o); }
  }

  /** Nor does it matter whether dispatching is allowed. */
  lemma OverEarlier(k: K, s: K, s1: K, t: nat)
    requires Over(s, s1, t) && s == k.(enadsp := s.enadsp, ipmopen := s.ipmopen)
    ensures Over(k, s1, t)
  {
    forall y: nat | y != t ensures LegacyAt(k, s1, Tsk(k, t).locks, y) { assert LegacyAt(s, s1, Tsk(s, t).locks, y); }
    forall o: nat ensures PassedAt(k, s1, Tsk(k, t).locks, o) { assert PassedAt(s, s1, Tsk(s, t).locks, o); }
  }

  lemma RasTerFollows(k: K, t: nat)
    requires Inv(k)
    ensures var (k1, er) := RasTer(k, t); Follows(k, CRasTer(t), er, k1)
  {
    var (k1, er) := RasTer(k, t);
    if er == Ok && Tsk(k, t).enater {
      TerminateFates(k, t);
      OverLater(k, Terminate(k, t), t, k1);
      EndFollows(k, CRasTer(t), t, k1);
    } else {
      RequestFollows(k, t);
    }
  }

  lemma RequestFollows(k: K, t: nat)
    requires Inv(k) && (RasTer(k, t).1 == Ok ==> !Tsk(k, t).enater)
    ensures var (k1, er) := RasTer(k, t); Follows(k, CRasTer(t), er, k1)
  {
    var (k1, er) := RasTer(k, t);
    var x := Tsk(k, t);
    if er == Ok && !x.stat.Runnable? {
      PlaceAlone(k, t, x.(raster := true, stat := Runnable, winfo := if x.stat.Waiting? then Result(ERaster) else x.winfo), false);
    }
    RequestFate(k, t, er, k1);
  }

  lemma RequestFate(k: K, t: nat, er: ER, k1: K)
    requires er == Ok ==> !Tsk(k, t).enater
    requires var x := Tsk(k, t);
      if er != Ok then k1 == k
      else Alone(k, k1, t, x.(raster := true, stat := Runnable, winfo := if x.stat.Waiting? then Result(ERaster) else x.winfo))
    ensures Follows(k, CRasTer(t), er, k1)
  {
    forall y: nat ensures TaskAt(k, CRasTer(t), er, k1, y) { RequestTells(k, t, er, y); }
    forall o: nat ensures ObjAt(k, CRasTer(t), er, k1, o) { assert !LetsGo(k, CRasTer(t), er, o); }
  }

  lemma RequestTells(k: K, t: nat, er: ER, y: nat)
    requires er == Ok ==> !Tsk(k, t).enater
    ensures var x := Tsk(k, y);
      FateBy(k, CRasTer(t), er, y) ==
        if y == t && er == Ok then x.(raster := true, stat := Runnable, winfo := if x.stat.Waiting? then Result(ERaster) else x.winfo) else x
  {
    assert !EndsBy(k, CRasTer(t), er, y) && !Inherits(k, CRasTer(t), er, y);
  }

  /** The end of task `t`, dispatching having become possible. */
  lemma OverAllowed(k: K, t: nat)
    requires Inv(k) && t < |k.tsk|
    ensures Over(k, Dispatch(Terminate(k.(enadsp := true, ipmopen := true), t)), t)
  {
    var s := k.(enadsp := true, ipmopen := true);
    SameCore(k, s);
    TerminateFates(s, t);
    OverLater(s, Terminate(s, t), t, Dispatch(Terminate(s, t)));
    OverEarlier(k, s, Dispatch(Terminate(s, t)), t);
  }

  lemma ExtTskFollows(k: K)
    requires Inv(k) && (k.ctx || k.run.Some?)
    ensures var (k1, er) := ExtTsk(k); Follows(k, CExtTsk, er, k1)
  {
    var (k1, er) := ExtTsk(k);
    if k.ctx {
      RefusedFate(k, CExtTsk, er);
    } else {
      OverAllowed(k, Self(k));
      EndFollows(k, CExtTsk, Self(k), k1);
    }
  }

  /** A call that is refused. */
  lemma RefusedFate(k: K, c: Call, er: ER)
    requires (c.CTerTsk? && er != Ok) || (c.CExtTsk? && k.ctx)
    ensures Follows(k, c, er, k)
  {
    assert forall y: nat :: !EndsBy(k, c, er, y);
    forall y: nat ensures TaskAt(k, c, er, k, y) {
      if c.CTerTsk? { TerTskTells(k, c.t, er, y); } else { ExtTskTells(k, er, y); }
    }
    forall o: nat ensures ObjAt(k, c, er, k, o) {}
  }

  lemma TerTskTells(k: K, t: nat, er: ER, y: nat)
    requires er != Ok
    ensures FateBy(k, CTerTsk(t), er, y) == Tsk(k, y)
  {}

  lemma ExtTskTells(k: K, er: ER, y: nat)
    requires k.ctx
    ensures FateBy(k, CExtTsk, er, y) == Tsk(k, y)
  {}

  lemma EnaTerFollows(k: K)
    requires Inv(k) && (k.ctx || k.run.Some?)
    ensures var (k1, er) := EnaTer(k); Follows(k, CEnaTer, er, k1)
  {
    var (k1, er) := EnaTer(k);
    var t := Self(k);
    if k.ctx {
      forall y: nat ensures TaskAt(k, CEnaTer, er, k1, y) {}
      forall o: nat ensures ObjAt(k, CEnaTer, er, k1, o) {}
    } else if Tsk(k, t).raster && Dsp(k) {
      TerminateFates(k, t);
      OverLater(k, Terminate(k, t), t, k1);
      EndFollows(k, CEnaTer, t, k1);
    } else {
      forall y: nat ensures TaskAt(k, CEnaTer, er, k1, y) {}
      forall o: nat ensures ObjAt(k, CEnaTer, er, k1, o) {}
    }
  }

  /** Dispatching becomes possible, by one of two calls. */
  lemma OpenedFollows(k: K, c: Call, k1: K)
    requires Inv(k) && k.run.Some? && !k.ctx && k1 == Opened(k.(enadsp := true, ipmopen := true))
    requires (c == CEnaDsp && k.ipmopen) || (c == CChgIpm(true) && k.enadsp)
    ensures Follows(k, c, Ok, k1)
  {
    var t := Self(k);
    if Tsk(k, t).raster && Tsk(k, t).enater {
      OpenedEnds(k, c, t);
    } else {
      SwitchFate(k, c, Ok, k1);
    }
  }

  lemma OpenedEnds(k: K, c: Call, t: nat)
    requires Inv(k) && k.run == Some(t) && !k.ctx && Tsk(k, t).raster && Tsk(k, t).enater
    requires (c == CEnaDsp && k.ipmopen) || (c == CChgIpm(true) && k.enadsp)
    ensures Follows(k, c, Ok, Dispatch(Terminate(k.(enadsp := true, ipmopen := true), t)))
  {
    OverAllowed(k, t);
    EndFollows(k, c, t, Dispatch(Terminate(k.(enadsp := true, ipmopen := true), t)));
  }

  /** Switching alone changes no task and no object. */
  lemma SwitchFate(k: K, c: Call, er: ER, k1: K)
    requires c == CEnaDsp || c.CChgIpm? || c == CDisDsp
    requires forall y: nat :: !EndsBy(k, c, er, y)
    requires k1.tsk == k.tsk && k1.cnt == k.cnt && k1.own == k.own && k1.obj == k.obj && k1.ctx == k.ctx
    ensures Follows(k, c, er, k1)
  {
    forall y: nat ensures TaskAt(k, c, er, k1, y) { SwitchTells(k, c, er, y); }
    forall o: nat ensures ObjAt(k, c, er, k1, o) {}
  }

  lemma SwitchTells(k: K, c: Call, er: ER, y: nat)
    requires (c == CEnaDsp || c.CChgIpm? || c == CDisDsp) && forall y: nat :: !EndsBy(k, c, er, y)
    ensures FateBy(k, c, er, y) == Tsk(k, y)
  {
    assert !EndsBy(k, c, er, y) && !Inherits(k, c, er, y);
  }

  lemma EnaDspFollows(k: K)
    requires Inv(k) && (k.ctx || k.run.Some?)
    ensures var (k1, er) := EnaDsp(k); Follows(k, CEnaDsp, er, k1)
  {
    var (k1, er) := EnaDsp(k);
    if !k.ctx && k.ipmopen {
      assert k.(enadsp := true) == k.(enadsp := true, ipmopen := true);
      OpenedFollows(k, CEnaDsp, k1);
    } else {
      SwitchFate(k, CEnaDsp, er, k1);
    }
  }

  lemma ChgIpmFollows(k: K, open: bool)
    requires Inv(k) && (k.ctx || k.run.Some?)
    ensures var (k1, er) := ChgIpm(k, open); Follows(k, CChgIpm(open), er, k1)
  {
    var (k1, er) := ChgIpm(k, open);
    if !k.ctx && open && k.enadsp {
      assert k.(ipmopen := true) == k.(enadsp := true, ipmopen := true);
      OpenedFollows(k, CChgIpm(open), k1);
    } else {
      SwitchFate(k, CChgIpm(open), er, k1);
    }
  }

  lemma DisDspFollows(k: K)
    requires Inv(k)
    ensures var (k1, er) := DisDsp(k); Follows(k, CDisDsp, er, k1)
  {
    var (k1, er) := DisDsp(k);
    SwitchFate(k, CDisDsp, er, k1);
  }

  // ---------- every step ----------

  lemma TaskCallFollows(k: K, c: Call)
    requires Inv(k) && (k.ctx || k.run.Some?)
    requires c.CActTsk? || c.CChgPri? || c.CSlpTsk? || c.CDlyTsk? || c.CWupTsk? || c.CRelWai? || c.CSusTsk? || c.CRsmTsk?
    ensures var (k1, er) := DoCall(k, c); Follows(k, c, er, k1)
  {
    match c
    case CActTsk(t) => ActTskFollows(k, t);
    case CChgPri(t, p) => ChgPriFollows(k, t, p);
    case CSlpTsk(tmo) => SlpTskFollows(k, tmo);
    case CDlyTsk(d) => DlyTskFollows(k, d);
    case CWupTsk(t) => WupTskFollows(k, t);
    case CRelWai(t) => RelWaiFollows(k, t);
    case CSusTsk(t) => SusTskFollows(k, t);
    case CRsmTsk(t) => RsmTskFollows(k, t);
  }

  lemma EndCallFollows(k: K, c: Call)
    requires Inv(k) && (k.ctx || k.run.Some?)
    requires c.CExtTsk? || c.CRasTer? || c.CDisTer? || c.CEnaTer? || c.CTerTsk? || c.CRotRdq? || c.CDisDsp? || c.CEnaDsp? || c.CChgIpm?
    ensures var (k1, er) := DoCall(k, c); Follows(k, c, er, k1)
  {
    match c
    case CExtTsk => ExtTskFollows(k);
    case CRasTer(t) => RasTerFollows(k, t);
    case CDisTer => DisTerFollows(k);
    case CEnaTer => EnaTerFollows(k);
    case CTerTsk(t) => TerTskFollows(k, t);
    case CRotRdq(p) => RotRdqFollows(k, p);
    case CDisDsp => DisDspFollows(k);
    case CEnaDsp => EnaDspFollows(k);
    case CChgIpm(open) => ChgIpmFollows(k, open);
  }

  lemma MutexCallFollows(k: K, c: Call)
    requires Inv(k) && (k.ctx || k.run.Some?) && (c.CLocMtx? || c.CPlocMtx? || c.CUnlMtx? || c.CIniMtx?)
    ensures var (k1, er) := DoCall(k, c); Follows(k, c, er, k1)
  {
    match c
    case CLocMtx(m, tmo) => LocMtxFollows(k, m, tmo);
    case CPlocMtx(m) => PlocMtxFollows(k, m);
    case CUnlMtx(m) => UnlMtxFollows(k, m);
    case CIniMtx(m) => IniMtxFollows(k, m);
  }

  lemma SemaphoreCallFollows(k: K, c: Call)
    requires Inv(k) && (k.ctx || k.run.Some?) && (c.CWaiSem? || c.CPolSem? || c.CSigSem? || c.CIniSem?)
    ensures var (k1, er) := DoCall(k, c); Follows(k, c, er, k1)
  {
    match c
    case CWaiSem(o, tmo) => WaiSemFollows(k, o, tmo);
    case CPolSem(o) => PolSemFollows(k, o);
    case CSigSem(o) => SigSemFollows(k, o);
    case CIniSem(o) => IniSemFollows(k, o);
  }

  lemma CallFollows(k: K, c: Call)
    requires Inv(k) && (k.ctx || k.run.Some?)
    ensures var (k1, er) := DoCall(k, c); Follows(k, c, er, k1)
  {
    if c.CActTsk? || c.CChgPri? || c.CSlpTsk? || c.CDlyTsk? || c.CWupTsk? || c.CRelWai? || c.CSusTsk? || c.CRsmTsk? {
      TaskCallFollows(k, c);
    } else if c.CLocMtx? || c.CPlocMtx? || c.CUnlMtx? || c.CIniMtx? {
      MutexCallFollows(k, c);
    } else if c.CWaiSem? || c.CPolSem? || c.CSigSem? || c.CIniSem? {
      SemaphoreCallFollows(k, c);
    } else {
      EndCallFollows(k, c);
    }
  }

  /** The step is a call, and there is somebody to make it. */
  predicate Called(k: K, e: Step) { e.Do? && (k.ctx || k.run.Some?) }

  predicate Ends(k: K, e: Step, t: nat) {
    Called(k, e) && EndsBy(k, e.c, DoCall(k, e.c).1, t)
  }

  function CntAfter(k: K, e: Step, o: nat): int {
    if Called(k, e) then CntBy(k, e.c, DoCall(k, e.c).1, o) else Cnt(k, o)
  }

  function OwnAfter(k: K, e: Step, o: nat): Option<nat> {
    if Called(k, e) then OwnBy(k, e.c, DoCall(k, e.c).1, o) else Own(k, o)
  }

  lemma NextFate(k: K, e: Step, y: nat)
    requires Inv(k)
    ensures Tsk(Next(k, e), y) == Fate(k, e, y)
  {
    match e
    case Do(c) =>
      if k.ctx || k.run.Some? {
        CallFollows(k, c);
        assert TaskAt(k, c, DoCall(k, c).1, DoCall(k, c).0, y);
      }
    case TimeEvent(t) =>
      if k.ctx && Timed(k, t) {
        PlaceMoved(k, t, Released(Tsk(k, t), if Tsk(k, t).stat.why == Delay then Ok else ETmout), false);
      }
    case IntEnter =>
    case IntExit =>
  }

  lemma NextObj(k: K, e: Step, o: nat)
    requires Inv(k)
    ensures Cnt(Next(k, e), o) == CntAfter(k, e, o) && Own(Next(k, e), o) == OwnAfter(k, e, o)
    ensures Next(k, e).obj == k.obj && |Next(k, e).tsk| == |k.tsk|
  {
    match e
    case Do(c) =>
      if k.ctx || k.run.Some? {
        CallFollows(k, c);
        assert ObjAt(k, c, DoCall(k, c).1, DoCall(k, c).0, o);
      }
    case TimeEvent(t) =>
      if k.ctx && Timed(k, t) {
        PlaceMoved(k, t, Released(Tsk(k, t), if Tsk(k, t).stat.why == Delay then Ok else ETmout), false);
      }
    case IntEnter =>
    case IntExit =>
  }

  /** In every run, one step changes each task, each count and each owner just so. */
  lemma {:induction false} EveryStep(s: K, es: seq<Step>, e: Step)
    requires Initial(s)
    ensures var k := Run(s, es);
      && (forall t: nat :: Tsk(Next(k, e), t) == Fate(k, e, t))
      && (forall o: nat :: Cnt(Next(k, e), o) == CntAfter(k, e, o) && Own(Next(k, e), o) == OwnAfter(k, e, o))
  {
    var k := Run(s, es);
    AlwaysInv(s, es);
    forall t: nat ensures Tsk(Next(k, e), t) == Fate(k, e, t) { NextFate(k, e, t); }
    forall o: nat ensures Cnt(Next(k, e), o) == CntAfter(k, e, o) && Own(Next(k, e), o) == OwnAfter(k, e, o) { NextObj(k, e, o); }
  }
}
