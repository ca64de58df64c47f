/** Who may be interrupted by whom: when dispatching is held off, and who runs meanwhile. And which error answers
    a call may give, each for its own reason. */
module KernelControl {
  import opened PriorityList
  import opened KernelSpec
  import opened KernelInv
  import opened KernelOps
  import opened KernelRuns
  import opened KernelEffects

  // ---------- dispatching ----------

  /** Nothing has been done to the objects, to dispatching or to the running task. */
  ghost predicate Global(k: K, s: K) {
    s == k.(tsk := s.tsk, wq := s.wq, cnt := s.cnt, own := s.own, ready := s.ready)
  }

  function EnadspBy(k: K, c: Call): bool {
    if k.ctx then k.enadsp else if c == CDisDsp then false else k.enadsp || c == CEnaDsp || c == CExtTsk
  }

  function IpmopenBy(k: K, c: Call): bool {
    if k.ctx then k.ipmopen else if c == CChgIpm(false) then false else k.ipmopen || c == CChgIpm(true) || c == CExtTsk
  }

  ghost predicate Steady(k: K, c: Call, k1: K) {
    && k1.enadsp == EnadspBy(k, c) && k1.ipmopen == IpmopenBy(k, c) && k1.ctx == k.ctx
    && (!Dsp(k1) || k1.ctx ==> k1.run == k.run)
  }

  predicate Switches(c: Call) { c.CDisDsp? || c.CEnaDsp? || c.CExtTsk? || c.CChgIpm? }

  lemma GlobalSteady(k: K, c: Call, s: K, k1: K)
    requires Global(k, s) && !Switches(c) && (k1 == s || k1 == Resched(s) || (!k.ctx && k1 == Dispatch(s)))
    ensures Steady(k, c, k1)
  {}

  lemma PlaceGlobal(k: K, t: nat, x: Task, front: bool)
    requires t < |k.tsk|
    ensures Global(k, Place(k, t, x, front))
  {
    PlaceMoved(k, t, x, front);
  }

  lemma ActTskSteady(k: K, t: nat)
    requires Inv(k)
    ensures Steady(k, CActTsk(t), ActTsk(k, t).0)
  {
    if ActTsk(k, t).1 == Ok && Tsk(k, t).stat.Dormant? {
      PlaceGlobal(k, t, Tsk(k, t).(stat := Runnable), false);
      GlobalSteady(k, CActTsk(t), Wake(k, t), ActTsk(k, t).0);
    }
  }

  lemma ChgPriSteady(k: K, t: nat, p: nat)
    requires Inv(k)
    ensures Steady(k, CChgPri(t, p), ChgPri(k, t, p).0)
  {
    if ChgPri(k, t, p).1 == Ok && !HoldsCeil(k, t) {
      var x := Tsk(k, t).(bpri := if p == 0 then Tsk(k, t).ipri else p - 1);
      ReplaceFacts(k, t, x, false);
      GlobalSteady(k, CChgPri(t, p), Replace(k, t, x, false), ChgPri(k, t, p).0);
    }
  }

  lemma BlockSteady(k: K, c: Call, why: Reason, timed: bool)
    requires Inv(k) && k.run.Some? && !k.ctx && !Switches(c)
    ensures Steady(k, c, Dispatch(Block(k, Self(k), why, timed)))
  {
    PlaceGlobal(k, Self(k), Asleep(Tsk(k, Self(k)), why, timed), false);
    GlobalSteady(k, c, Block(k, Self(k), why, timed), Dispatch(Block(k, Self(k), why, timed)));
  }

  lemma UnwaitSteady(k: K, c: Call, t: nat, er: ER)
    requires Inv(k) && IsWaiting(k, t) && !Switches(c)
    ensures Steady(k, c, Resched(Unwait(k, t, er)))
  {
    PlaceGlobal(k, t, Released(Tsk(k, t), er), false);
    GlobalSteady(k, c, Unwait(k, t, er), Resched(Unwait(k, t, er)));
  }

  lemma SusTskSteady(k: K, t: nat)
    requires Inv(k)
    ensures Steady(k, CSusTsk(t), SusTsk(k, t).0)
  {
    if SusTsk(k, t).1 == Ok && Tsk(k, t).stat.Runnable? {
      var x := Tsk(k, t).(stat := Suspended);
      PlaceGlobal(k, t, x, false);
      GlobalSteady(k, CSusTsk(t), Place(k, t, x, false), SusTsk(k, t).0);
    }
  }

  lemma RsmTskSteady(k: K, t: nat)
    requires Inv(k)
    ensures Steady(k, CRsmTsk(t), RsmTsk(k, t).0)
  {
    if RsmTsk(k, t).1 == Ok && Tsk(k, t).stat.Suspended? {
      PlaceGlobal(k, t, Tsk(k, t).(stat := Runnable), false);
      GlobalSteady(k, CRsmTsk(t), Wake(k, t), RsmTsk(k, t).0);
    }
  }

  lemma EndSteady(k: K, c: Call, t: nat)
    requires Inv(k) && t < |k.tsk| && !k.ctx && !Switches(c)
    ensures Steady(k, c, Dispatch(Terminate(k, t)))
  {
    TerminateCore(k, t);
    GlobalSteady(k, c, Terminate(k, t), Dispatch(Terminate(k, t)));
  }

  lemma RasTerSteady(k: K, t: nat)
    requires Inv(k)
    ensures Steady(k, CRasTer(t), RasTer(k, t).0)
  {
    var x := Tsk(k, t);
    if RasTer(k, t).1 == Ok {
      if x.enater { EndSteady(k, CRasTer(t), t); }
      else if !x.stat.Runnable? {
        var x1 := x.(stat := Runnable, raster := true, winfo := if x.stat.Waiting? then Result(ERaster) else x.winfo);
        PlaceGlobal(k, t, x1, false);
        GlobalSteady(k, CRasTer(t), Place(k, t, x1, false), RasTer(k, t).0);
      }
    }
  }

  lemma ExtTskSteady(k: K)
    requires Inv(k) && (k.ctx || k.run.Some?)
    ensures Steady(k, CExtTsk, ExtTsk(k).0)
  {
    if !k.ctx {
      var s := k.(enadsp := true, ipmopen := true);
      SameCore(k, s);
      TerminateCore(s, Self(s));
    }
  }

  lemma OpenedSteady(k: K)
    requires Inv(k) && k.run.Some? && !k.ctx
    ensures var k1 := Opened(k.(enadsp := true, ipmopen := true)); k1.enadsp && k1.ipmopen && !k1.ctx
  {
    var s := k.(enadsp := true, ipmopen := true);
    SameCore(k, s);
    if Tsk(k, Self(k)).raster && Tsk(k, Self(k)).enater { TerminateCore(s, Self(s)); }
  }

  lemma SwitchSteady(k: K, c: Call)
    requires Inv(k) && (k.ctx || k.run.Some?) && Switches(c)
    ensures Steady(k, c, DoCall(k, c).0)
  {
    match c
    case CExtTsk => ExtTskSteady(k);
    case CDisDsp =>
    case CEnaDsp =>
      if !k.ctx && k.ipmopen {
        assert k.(enadsp := true) == k.(enadsp := true, ipmopen := true);
        OpenedSteady(k);
      }
    case CChgIpm(open) =>
      if !k.ctx && open && k.enadsp {
        assert k.(ipmopen := true) == k.(enadsp := true, ipmopen := true);
        OpenedSteady(k);
      }
  }

  lemma RotRdqSteady(k: K, p: nat)
    requires Inv(k)
    ensures Steady(k, CRotRdq(p), RotRdq(k, p).0)
  {
    if RotRdq(k, p).1 == Ok {
      var q := if p == 0 then Tsk(k, Self(k)).bpri else p - 1;
      RotateMovesOnly(k, q);
      GlobalSteady(k, CRotRdq(p), Rotate(k, q), RotRdq(k, p).0);
    }
  }

  lemma LockSteady(k: K, c: Call, m: nat)
    requires Inv(k) && k.run.Some? && !Switches(c)
    ensures Steady(k, c, Acquire(k, Self(k), m))
  {
    var t := Self(k);
    var s := SetOwn(k, m, Some(t));
    OwnerSet(k, m, Some(t));
    RelockFacts(s, t, Tsk(k, t).locks + [m]);
    GlobalSteady(k, c, Acquire(k, t, m), Acquire(k, t, m));
  }

  lemma UnlMtxSteady(k: K, m: nat)
    requires Inv(k) && (k.ctx || k.run.Some?)
    ensures Steady(k, CUnlMtx(m), UnlMtx(k, m).0)
  {
    if UnlMtx(k, m).1 == Ok {
      var s := Relock(k, Self(k), Remove(Tsk(k, Self(k)).locks, m));
      DropCore(k, Self(k), m);
      assert LockAt(k, Self(k), m, None);
      ReleaseFates(s, m);
      GlobalSteady(k, CUnlMtx(m), Release(s, m), UnlMtx(k, m).0);
    }
  }

  lemma IniMtxSteady(k: K, m: nat)
    requires Inv(k)
    ensures Steady(k, CIniMtx(m), IniMtx(k, m).0)
  {
    if IniMtx(k, m).1 == Ok {
      UnwaitAllCore(k, m, Que(k, m), EDlt);
      var s := UnwaitAll(k, Que(k, m), EDlt);
      if Own(s, m).Some? {
        var h := Own(s, m).value;
        assert OwnAt(s, m, None);
        RelockFacts(s, h, Remove(Tsk(s, h).locks, m));
        GlobalSteady(k, CIniMtx(m), SetOwn(Relock(s, h, Remove(Tsk(s, h).locks, m)), m, None), IniMtx(k, m).0);
      } else {
        GlobalSteady(k, CIniMtx(m), s, IniMtx(k, m).0);
      }
    }
  }

  lemma IniSemSteady(k: K, o: nat)
    requires Inv(k)
    ensures Steady(k, CIniSem(o), IniSem(k, o).0)
  {
    if IniSem(k, o).1 == Ok {
      UnwaitAllCore(k, o, Que(k, o), EDlt);
      GlobalSteady(k, CIniSem(o), SetCnt(UnwaitAll(k, Que(k, o), EDlt), o, k.obj[o].init), IniSem(k, o).0);
    }
  }

  lemma SigSemSteady(k: K, o: nat)
    requires Inv(k)
    ensures Steady(k, CSigSem(o), SigSem(k, o).0)
  {
    if IsSem(k.obj, o) && Que(k, o) != [] {
      HeadWaits(k, o);
      UnwaitSteady(k, CSigSem(o), Que(k, o)[0], Ok);
    }
  }

  lemma TaskCallSteady(k: K, c: Call)
    requires Inv(k) && (k.ctx || k.run.Some?)
    requires c.CActTsk? || c.CChgPri? || c.CSlpTsk? || c.CDlyTsk? || c.CWupTsk? || c.CRelWai? || c.CSusTsk? || c.CRsmTsk?
    ensures Steady(k, c, DoCall(k, c).0)
  {
    match c
    case CActTsk(t) =>
      assert DoCall(k, c) == ActTsk(k, t);
      ActTskSteady(k, t);
    case CChgPri(t, p) =>
      assert DoCall(k, c) == ChgPri(k, t, p);
      ChgPriSteady(k, t, p);
    case CSlpTsk(tmo) =>
      assert DoCall(k, c) == SlpTsk(k, tmo);
      if DoCall(k, c).1 == Blocked { BlockSteady(k, c, Sleep, tmo != TMO_FEVR); }
    case CDlyTsk(d) =>
      assert DoCall(k, c) == DlyTsk(k, d);
      if DoCall(k, c).1 == Blocked { BlockSteady(k, c, Delay, true); }
    case CWupTsk(t) =>
      assert DoCall(k, c) == WupTsk(k, t);
      if IsWaiting(k, t) { UnwaitSteady(k, c, t, Ok); }
    case CRelWai(t) =>
      assert DoCall(k, c) == RelWai(k, t);
      if IsWaiting(k, t) { UnwaitSteady(k, c, t, ERlwai); }
    case CSusTsk(t) =>
      assert DoCall(k, c) == SusTsk(k, t);
      SusTskSteady(k, t);
    case CRsmTsk(t) =>
      assert DoCall(k, c) == RsmTsk(k, t);
      RsmTskSteady(k, t);
  }

  lemma EndCallSteady(k: K, c: Call)
    requires Inv(k) && (k.ctx || k.run.Some?)
    requires c.CRasTer? || c.CDisTer? || c.CEnaTer? || c.CTerTsk? || c.CRotRdq?
    ensures Steady(k, c, DoCall(k, c).0)
  {
    match c
    case CRasTer(t) =>
      assert DoCall(k, c) == RasTer(k, t);
      RasTerSteady(k, t);
    case CDisTer =>
    case CEnaTer =>
      assert DoCall(k, c) == EnaTer(k);
      if !k.ctx && Tsk(k, Self(k)).raster && Dsp(k) { EndSteady(k, c, Self(k)); }
    case CTerTsk(t) =>
      assert DoCall(k, c) == TerTsk(k, t);
      if DoCall(k, c).1 == Ok { EndSteady(k, c, t); }
    case CRotRdq(p) =>
      assert DoCall(k, c) == RotRdq(k, p);
      RotRdqSteady(k, p);
  }

  lemma LocMtxSteady(k: K, m: nat, tmo: nat)
    requires Inv(k) && (k.ctx || k.run.Some?)
    ensures Steady(k, CLocMtx(m, tmo), LocMtx(k, m, tmo).0)
  {
    var er := LocMtx(k, m, tmo).1;
    if er == Ok { LockSteady(k, CLocMtx(m, tmo), m); } else if er == Blocked { BlockSteady(k, CLocMtx(m, tmo), On(m), tmo != TMO_FEVR); }
  }

  lemma PlocMtxSteady(k: K, m: nat)
    requires Inv(k) && (k.ctx || k.run.Some?)
    ensures Steady(k, CPlocMtx(m), PlocMtx(k, m).0)
  {
    if PlocMtx(k, m).1 == Ok { LockSteady(k, CPlocMtx(m), m); }
  }

  lemma WaiSemSteady(k: K, o: nat, tmo: nat)
    requires Inv(k) && (k.ctx || k.run.Some?)
    ensures Steady(k, CWaiSem(o, tmo), WaiSem(k, o, tmo).0)
  {
    if WaiSem(k, o, tmo).1 == Blocked { BlockSteady(k, CWaiSem(o, tmo), On(o), tmo != TMO_FEVR); }
  }

  lemma MutexCallSteady(k: K, c: Call)
    requires Inv(k) && (k.ctx || k.run.Some?) && (c.CLocMtx? || c.CPlocMtx? || c.CUnlMtx? || c.CIniMtx?)
    ensures Steady(k, c, DoCall(k, c).0)
  {
    match c
    case CLocMtx(m, tmo) => LocMtxSteady(k, m, tmo);
    case CPlocMtx(m) => PlocMtxSteady(k, m);
    case CUnlMtx(m) => UnlMtxSteady(k, m);
    case CIniMtx(m) => IniMtxSteady(k, m);
  }

  lemma SemaphoreCallSteady(k: K, c: Call)
    requires Inv(k) && (k.ctx || k.run.Some?) && (c.CWaiSem? || c.CPolSem? || c.CSigSem? || c.CIniSem?)
    ensures Steady(k, c, DoCall(k, c).0)
  {
    match c
    case CWaiSem(o, tmo) => WaiSemSteady(k, o, tmo);
    case CPolSem(o) =>
    case CSigSem(o) => SigSemSteady(k, o);
    case CIniSem(o) => IniSemSteady(k, o);
  }

  lemma CallSteady(k: K, c: Call)
    requires Inv(k) && (k.ctx || k.run.Some?)
    ensures Steady(k, c, DoCall(k, c).0)
  {
    if Switches(c) {
      SwitchSteady(k, c);
    } else if c.CLocMtx? || c.CPlocMtx? || c.CUnlMtx? || c.CIniMtx? {
      MutexCallSteady(k, c);
    } else if c.CWaiSem? || c.CPolSem? || c.CSigSem? || c.CIniSem? {
      SemaphoreCallSteady(k, c);
    } else if c.CRasTer? || c.CDisTer? || c.CEnaTer? || c.CTerTsk? || c.CRotRdq? {
      EndCallSteady(k, c);
    } else {
      TaskCallSteady(k, c);
    }
  }

  /** What the calls made so far have come to for the kernel as a whole. */
  datatype Switch = Switch(enadsp: bool, ipmopen: bool, ctx: bool)

  function SwitchOf(s: K, es: seq<Step>): Switch
    decreases |es|
  {
    if es == [] then Switch(true, true, s.ctx)
    else
      var k, e, h := Run(s, es[..|es| - 1]), es[|es| - 1], SwitchOf(s, es[..|es| - 1]);
      match e
      case IntEnter => h.(ctx := true)
      case IntExit => h.(ctx := false)
      case TimeEvent(_) => h
      case Do(c) =>
        if h.ctx || k.run == None then h
        else
          match c
          case CDisDsp => h.(enadsp := false)
          case CEnaDsp => h.(enadsp := true)
          case CChgIpm(open) => h.(ipmopen := open)
          case CExtTsk => h.(enadsp := true, ipmopen := true)
          case _ => h
  }

  lemma NextSwitch(k: K, e: Step)
    requires Inv(k)
    ensures var k1 := Next(k, e);
      && (!Dsp(k1) || k1.ctx ==> k1.run == k.run)
      && (if Called(k, e) then k1.enadsp == EnadspBy(k, e.c) && k1.ipmopen == IpmopenBy(k, e.c) && k1.ctx == k.ctx
          else k1.enadsp == k.enadsp && k1.ipmopen == k.ipmopen && (k1.ctx == if e.IntEnter? then true else if e.IntExit? then false else k.ctx))
  {
    match e
    case Do(c) => if Called(k, e) { CallSteady(k, c); }
    case TimeEvent(t) =>
      if k.ctx && Timed(k, t) { PlaceGlobal(k, t, Released(Tsk(k, t), if Tsk(k, t).stat.why == Delay then Ok else ETmout), false); }
    case IntEnter =>
    case IntExit =>
  }

  /** In every run, dispatching is held off exactly by the latest calls about it, and a step after which it is held
      off, or after which an interrupt handler runs, has left the running task running. */
  lemma {:induction false} DispatchingHeldOff(s: K, es: seq<Step>)
    requires Initial(s)
    ensures var k, h := Run(s, es), SwitchOf(s, es); k.enadsp == h.enadsp && k.ipmopen == h.ipmopen && k.ctx == h.ctx
    ensures forall e :: (!Dsp(Next(Run(s, es), e)) || Next(Run(s, es), e).ctx) ==> Next(Run(s, es), e).run == Run(s, es).run
    decreases |es|
  {
    AlwaysInv(s, es);
    forall e: Step ensures (!Dsp(Next(Run(s, es), e)) || Next(Run(s, es), e).ctx) ==> Next(Run(s, es), e).run == Run(s, es).run {
      NextSwitch(Run(s, es), e);
    }
    if es != [] {
      DispatchingHeldOff(s, es[..|es| - 1]);
      AlwaysInv(s, es[..|es| - 1]);
      NextSwitch(Run(s, es[..|es| - 1]), es[|es| - 1]);
    }
  }

  // ---------- errors ----------

  predicate Barred(k: K, t: nat, m: nat, p: nat) {
    m < |k.obj| && k.obj[m].Ceil? && p < k.obj[m].ceil && (m in Tsk(k, t).locks || WaitsOn(k, t, m))
  }

  ghost predicate SomeBars(k: K, t: nat, p: nat) { exists m :: Barred(k, t, m, p) }

  /** What an error answer says about the state of things. */
  ghost predicate Excuse(k: K, c: Call, er: ER) {
    match er
    case ECtx =>
      (match c
       case CActTsk(_) => false case CWupTsk(_) => false case CRelWai(_) => false case CSigSem(_) => false case CRotRdq(_) => false
       case CSlpTsk(_) => k.ctx || !Dsp(k)
       case CDlyTsk(_) => k.ctx || !Dsp(k)
       case CLocMtx(_, _) => k.ctx || !Dsp(k)
       case CWaiSem(_, _) => k.ctx || !Dsp(k)
       case CSusTsk(t) => k.ctx || (k.run == Some(t) && !Dsp(k))
       case _ => k.ctx)
    case EId =>
      (match c
       case CActTsk(t) => t >= |k.tsk|
       case CChgPri(t, _) => t >= |k.tsk|
       case CWupTsk(t) => t >= |k.tsk|
       case CRelWai(t) => t >= |k.tsk|
       case CSusTsk(t) => t >= |k.tsk|
       case CRsmTsk(t) => t >= |k.tsk|
       case CRasTer(t) => t >= |k.tsk|
       case CTerTsk(t) => t >= |k.tsk|
       case CLocMtx(m, _) => m >= |k.obj| || k.obj[m].Sem?
       case CPlocMtx(m) => m >= |k.obj| || k.obj[m].Sem?
       case CUnlMtx(m) => m >= |k.obj| || k.obj[m].Sem?
       case CIniMtx(m) => m >= |k.obj| || k.obj[m].Sem?
       case CWaiSem(o, _) => o >= |k.obj| || !k.obj[o].Sem?
       case CPolSem(o) => o >= |k.obj| || !k.obj[o].Sem?
       case CSigSem(o) => o >= |k.obj| || !k.obj[o].Sem?
       case CIniSem(o) => o >= |k.obj| || !k.obj[o].Sem?
       case _ => false)
    case EPar =>
      (match c
       case CChgPri(_, p) => p > 16
       case CRotRdq(p) => p > 16 || (p == 0 && k.ctx)
       case CDlyTsk(d) => d > 4000000000
       case CSlpTsk(tmo) => 4000000000 < tmo != 0xFFFF_FFFF
       case CLocMtx(_, tmo) => 4000000000 < tmo != 0xFFFF_FFFF
       case CWaiSem(_, tmo) => 4000000000 < tmo != 0xFFFF_FFFF
       case _ => false)
    case EObj =>
      (match c
       case CChgPri(t, _) => Tsk(k, t).stat.Dormant?
       case CWupTsk(t) => Tsk(k, t).stat.Dormant?
       case CSusTsk(t) => Tsk(k, t).stat.Dormant?
       case CRasTer(t) => Tsk(k, t).stat.Dormant?
       case CTerTsk(t) => Tsk(k, t).stat.Dormant?
       case CRelWai(t) => !Tsk(k, t).stat.Waiting?
       case CRsmTsk(t) => !(Tsk(k, t).stat.Suspended? || (Tsk(k, t).stat.Waiting? && Tsk(k, t).stat.sus))
       case CLocMtx(m, _) => Own(k, m).Some? && Own(k, m) == k.run
       case CPlocMtx(m) => Own(k, m).Some? && Own(k, m) == k.run
       case CUnlMtx(m) => k.run.Some? && var l := Tsk(k, k.run.value).locks; l == [] || l[|l| - 1] != m
       case _ => false)
    case EIluse =>
      (match c
       case CChgPri(t, p) => SomeBars(k, t, if p == 0 then Tsk(k, t).ipri else p - 1)
       case CRasTer(t) => k.run == Some(t)
       case CTerTsk(t) => k.run == Some(t)
       case CLocMtx(m, _) => m < |k.obj| && k.obj[m].Ceil? && k.run.Some? && Tsk(k, k.run.value).bpri < k.obj[m].ceil
       case CPlocMtx(m) => m < |k.obj| && k.obj[m].Ceil? && k.run.Some? && Tsk(k, k.run.value).bpri < k.obj[m].ceil
       case _ => false)
    case EQovr =>
      (match c
       case CActTsk(t) => !Tsk(k, t).stat.Dormant? && (Tsk(k, t).noactque || Tsk(k, t).actque)
       case CWupTsk(t) => Tsk(k, t).wupque && !(Tsk(k, t).stat.Waiting? && Tsk(k, t).stat.why == Sleep)
       case CSusTsk(t) => Tsk(k, t).stat.Suspended? || (Tsk(k, t).stat.Waiting? && Tsk(k, t).stat.sus)
       case CSigSem(o) => o < |k.obj| && k.obj[o].Sem? && Cnt(k, o) == k.obj[o].max && Que(k, o) == []
       case _ => false)
    case ERaster =>
      (match c
       case CSusTsk(t) => Tsk(k, t).raster
       case CSlpTsk(_) => k.run.Some? && Tsk(k, k.run.value).raster
       case CDlyTsk(_) => k.run.Some? && Tsk(k, k.run.value).raster
       case CLocMtx(_, _) => k.run.Some? && Tsk(k, k.run.value).raster
       case CWaiSem(_, _) => k.run.Some? && Tsk(k, k.run.value).raster
       case _ => false)
    case ETmout =>
      (match c
       case CSlpTsk(tmo) => tmo == 0 && k.run.Some? && !Tsk(k, k.run.value).wupque
       case CLocMtx(m, tmo) => tmo == 0 && Own(k, m).Some? && Own(k, m) != k.run
       case CPlocMtx(m) => Own(k, m).Some? && Own(k, m) != k.run
       case CWaiSem(o, tmo) => tmo == 0 && Cnt(k, o) == 0
       case CPolSem(o) => Cnt(k, o) == 0
       case _ => false)
    case _ => false
  }

  lemma BarredBy(k: K, t: nat, p: nat)
    ensures CeilingBars(k, t, p) <==> SomeBars(k, t, p)
  {
    if CeilingBars(k, t, p) {
      var m :| 0 <= m < |k.obj| && (m in Tsk(k, t).locks || WaitsOn(k, t, m)) && p < Ceiling(k.obj, m) && IsCeil(k.obj, m);
      assert Barred(k, t, m, p);
    }
    if SomeBars(k, t, p) {
      var m :| Barred(k, t, m, p);
      assert IsCeil(k.obj, m) && p < Ceiling(k.obj, m);
    }
  }

  /** The answer is an error exactly if some error has an excuse, and then one that has. */
  ghost predicate Honest(k: K, c: Call, er: ER) {
    if er == Ok || er == Blocked then forall r :: !Excuse(k, c, r) else Excuse(k, c, er)
  }

  lemma ErrorsOfSleeping(k: K, c: Call)
    requires Inv(k) && (k.ctx || k.run.Some?) && (c.CSlpTsk? || c.CDlyTsk?)
    ensures Honest(k, c, DoCall(k, c).1)
  {
    match c { case CSlpTsk(_) => case CDlyTsk(_) => }
  }

  lemma ErrorsOfTaskCalls(k: K, c: Call)
    requires Inv(k) && (k.ctx || k.run.Some?) && (c.CActTsk? || c.CWupTsk? || c.CRelWai? || c.CSusTsk? || c.CRsmTsk?)
    ensures Honest(k, c, DoCall(k, c).1)
  {
    match c { case CActTsk(_) => case CWupTsk(_) => case CRelWai(_) => case CSusTsk(_) => case CRsmTsk(_) => }
  }

  lemma ErrorsOfChgPri(k: K, t: nat, p: nat)
    requires Inv(k) && (k.ctx || k.run.Some?)
    ensures Honest(k, CChgPri(t, p), DoCall(k, CChgPri(t, p)).1)
  {
    if p <= 16 { BarredBy(k, t, if p == 0 then Tsk(k, t).ipri else p - 1); }
  }

  lemma ErrorsOfEndCalls(k: K, c: Call)
    requires Inv(k) && (k.ctx || k.run.Some?)
    requires c.CExtTsk? || c.CRasTer? || c.CDisTer? || c.CEnaTer? || c.CTerTsk? || c.CRotRdq? || c.CDisDsp? || c.CEnaDsp? || c.CChgIpm?
    ensures Honest(k, c, DoCall(k, c).1)
  {}

  lemma ErrorsOfLocking(k: K, c: Call)
    requires Inv(k) && (k.ctx || k.run.Some?) && (c.CLocMtx? || c.CPlocMtx?)
    ensures Honest(k, c, DoCall(k, c).1)
  {
    match c { case CLocMtx(_, _) => case CPlocMtx(_) => }
  }

  lemma ErrorsOfReleasing(k: K, c: Call)
    requires Inv(k) && (k.ctx || k.run.Some?) && (c.CUnlMtx? || c.CIniMtx? || c.CIniSem?)
    ensures Honest(k, c, DoCall(k, c).1)
  {
    match c { case CUnlMtx(_) => case CIniMtx(_) => case CIniSem(_) => }
  }

  lemma ErrorsOfSigSem(k: K, o: nat)
    requires Inv(k) && (k.ctx || k.run.Some?)
    ensures Honest(k, CSigSem(o), DoCall(k, CSigSem(o)).1)
  {
    assert CondAt(k, o);
  }

  lemma ErrorsOfTaking(k: K, c: Call)
    requires Inv(k) && (k.ctx || k.run.Some?) && (c.CWaiSem? || c.CPolSem?)
    ensures Honest(k, c, DoCall(k, c).1)
  {
    match c { case CWaiSem(_, _) => case CPolSem(_) => }
  }

  /** In every run, a call succeeds, or puts its caller to sleep, exactly if there is no reason for any error, and
      otherwise its answer names a reason there is. */
  lemma {:induction false} ErrorsHaveReasons(s: K, es: seq<Step>, c: Call)
    requires Initial(s) && (Run(s, es).ctx || Run(s, es).run.Some?)
    ensures Honest(Run(s, es), c, DoCall(Run(s, es), c).1)
  {
    var k := Run(s, es);
    AlwaysInv(s, es);
    if c.CChgPri? { ErrorsOfChgPri(k, c.t, c.tskpri); }
    else if c.CSlpTsk? || c.CDlyTsk? { ErrorsOfSleeping(k, c); }
    else if c.CActTsk? || c.CWupTsk? || c.CRelWai? || c.CSusTsk? || c.CRsmTsk? { ErrorsOfTaskCalls(k, c); }
    else if c.CLocMtx? || c.CPlocMtx? { ErrorsOfLocking(k, c); }
    else if c.CUnlMtx? || c.CIniMtx? || c.CIniSem? { ErrorsOfReleasing(k, c); }
    else if c.CSigSem? { ErrorsOfSigSem(k, c.o); }
    else if c.CWaiSem? || c.CPolSem? { ErrorsOfTaking(k, c); }
    else { ErrorsOfEndCalls(k, c); }
  }
}
