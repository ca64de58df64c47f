/** The steps of the service calls that are more than a task waking up or going to sleep: what they do to
    the data of the kernel stands for what the specification says. */
module KernelCalls {
  import opened Bitmap
  import opened PriorityList
  import opened ReadyQueues
  import opened KernelSpec
  import opened KernelInv
  import opened KernelOps
  import opened KernelRuns
  import opened KernelData
  import opened KernelRel
  import opened KernelLocks

  // ---------- dispatching ----------

  lemma FlagsStep(c: C, g: K, enadsp: bool, ipmopen: bool, ctx: bool)
    requires Models(c, g, None, None)
    ensures Models(c.(enadsp := enadsp, ipmopen := ipmopen, dspflg := enadsp && ipmopen, ctx := ctx),
                   g.(enadsp := enadsp, ipmopen := ipmopen, ctx := ctx), None, None)
  {
    var c1 := c.(enadsp := enadsp, ipmopen := ipmopen, dspflg := enadsp && ipmopen, ctx := ctx);
    var g1 := g.(enadsp := enadsp, ipmopen := ipmopen, ctx := ctx);
    SameCore(g, g1);
    forall z: nat ensures TaskAt(c1.tcb, c1.prevmtx, g1, z, None) && EventAt(c1.tmev, g1, z) {
      assert TaskAt(c.tcb, c.prevmtx, g, z, None) && EventAt(c.tmev, g, z);
    }
  }

  /** The first task of priority `p` is the head of queue `p`. */
  lemma RotateStep(c: C, g: K, rq: seq<seq<nat>>, p: nat)
    requires Models(c, g, None, None) && Ranked(Prios(c.tcb), rq, 0) && |rq| == LEVELS && Flat(rq) == c.ready && p < LEVELS
    ensures Models(c.(ready := Rotated(Prios(c.tcb), rq, p)), Rotate(g, p), None, None)
    ensures Rotate(g, p).obj == g.obj
  {
    PriosAgree(c, g, None);
    FirstOfPriority(Prios(c.tcb), rq, p);
    SlotFrame(Prios(c.tcb), Pris(g), g.ready, p, true);
    var i := Slot(Pris(g), g.ready, p, true);
    if i < |g.ready| && At(Pris(g), g.ready[i]) == p {
      assert g.ready[i] in g.ready;
      GoBehind(c, g, g.ready[i]);
    }
  }

  /** A runnable task goes behind those of its priority. */
  lemma GoBehind(c: C, g: K, t: nat)
    requires Models(c, g, None, None) && t in g.ready
    ensures var g1 := Place(g, t, Tsk(g, t), false);
      Models(c.(ready := Insert(Prios(c.tcb), Remove(c.ready, t), t, false)), g1, None, None) && g1.obj == g.obj
  {
    assert ReadyAt(g, t) && TaskAt(c.tcb, c.prevmtx, g, t, None) && EventAt(c.tmev, g, t);
    FitsSelf(g, t, None, None);
    PlaceCore(g, t, Tsk(g, t), false, None, None);
    assert c.tmev - {t} == c.tmev && c.tcb[t := c.tcb[t]] == c.tcb;
    RelStep(c, c.(ready := Insert(Prios(c.tcb), Remove(c.ready, t), t, false)), g, None, t, Tsk(g, t), c.tcb[t], false);
  }

  lemma FirstOfPriority(pri: seq<nat>, rq: seq<seq<nat>>, p: nat)
    requires Ranked(pri, rq, 0) && |rq| == LEVELS && p < LEVELS
    ensures var i := Slot(pri, Flat(rq), p, true);
      if rq[p] == [] then !(i < |Flat(rq)| && At(pri, Flat(rq)[i]) == p)
      else i < |Flat(rq)| && At(pri, Flat(rq)[i]) == p && Flat(rq)[i] == rq[p][0]
  {
    var a, m, b := Flat(rq[..p]), rq[p], Flat(rq[p+1..]);
    var q := a + m + b;
    FlatSplit(rq, p);
    RankedParts(pri, rq, p);
    assert forall i :: 0 <= i < |a| ==> q[i] in a;
    if m != [] { assert q[|a|] == m[0] && m[0] in m; } else if b != [] { assert q[|a|] == b[0] && b[0] in b; }
    SlotUnique(pri, q, p, true, |a|);
  }

  // ---------- semaphores ----------

  lemma CountStep(c: C, g: K, o: nat, n: nat)
    requires Models(c, g, None, None) && o < |c.semcnt| && Core(SetCnt(g, o, n), None, None)
    ensures Models(c.(semcnt := c.semcnt[o := n]), SetCnt(g, o, n), None, None)
  {
    var g1 := SetCnt(g, o, n);
    forall z: nat ensures TaskAt(c.tcb, c.prevmtx, g1, z, None) && EventAt(c.tmev, g1, z) {
      assert TaskAt(c.tcb, c.prevmtx, g, z, None) && EventAt(c.tmev, g, z);
    }
  }

  // ---------- suspension and requests to end ----------

  lemma SuspendCore(g: K, t: nat)
    requires Core(g, None, None) && IsRunnable(g, t) && !Tsk(g, t).raster
    ensures Core(Place(g, t, Tsk(g, t).(stat := Suspended), false), None, None)
  {
    FitsSelf(g, t, None, None);
    var x := Tsk(g, t).(stat := Suspended);
    forall o: nat ensures CeilFitsAt(g.obj, x, o) { assert CeilFitsAt(g.obj, Tsk(g, t), o); }
    PlaceCore(g, t, x, false, None, None);
  }

  /** What `ras_ter` does to a task that is not runnable: it is to end, so its wait ends. */
  function Recalled(c: C, t: nat): C
    requires t < |c.tcb|
  {
    var c1 := c.(tcb := c.tcb[t := c.tcb[t].(raster := true)]);
    if c.tcb[t].stat.Waiting? then Running(Answered(OffTimer(OffQueue(c1, t), t), t, ERaster), t) else Running(c1, t)
  }

  function RecalledBlock(x: TCB): TCB {
    x.(stat := Runnable, raster := true, winfo := if x.stat.Waiting? then Result(ERaster) else x.winfo)
  }

  function RecalledTask(x: Task): Task {
    x.(stat := Runnable, raster := true, winfo := if x.stat.Waiting? then Result(ERaster) else x.winfo)
  }

  lemma RecallRelocates(c: C, t: nat)
    requires t < |c.tcb| && !c.tcb[t].stat.Runnable? && (!c.tcb[t].stat.Waiting? ==> t !in c.tmev)
    ensures Relocated(c, Recalled(c, t), t, RecalledBlock(c.tcb[t]), false)
  {
    var x := c.tcb[t].(raster := true);
    var c1 := c.(tcb := c.tcb[t := x]);
    if c.tcb[t].stat.Waiting? {
      RecallWaiting(c, t);
    } else {
      assert c1.tcb[t := x.(stat := Runnable)] == c.tcb[t := x.(stat := Runnable)];
      assert c.tmev - {t} == c.tmev;
    }
  }

  lemma RecallWaiting(c: C, t: nat)
    requires t < |c.tcb| && c.tcb[t].stat.Waiting?
    ensures Relocated(c, Recalled(c, t), t, RecalledBlock(c.tcb[t]), false)
  {
    var x := c.tcb[t].(raster := true);
    var x2 := x.(winfo := Result(ERaster));
    AnsweredIs(c.(tcb := c.tcb[t := x]), t, ERaster);
    LastUpdateWins(c.tcb, t, x, x2);
    LastUpdateWins(c.tcb, t, x2, RecalledBlock(c.tcb[t]));
  }

  lemma RecallStep(c: C, g: K, t: nat)
    requires Models(c, g, None, None) && t < |g.tsk| && !IsRunnable(g, t) && !Tsk(g, t).stat.Dormant?
    ensures t < |c.tcb| && Models(Recalled(c, t), Place(g, t, RecalledTask(Tsk(g, t)), false), None, None)
    ensures Place(g, t, RecalledTask(Tsk(g, t)), false).obj == g.obj
  {
    assert TaskAt(c.tcb, c.prevmtx, g, t, None) && EventAt(c.tmev, g, t);
    FitsSelf(g, t, None, None);
    var x := RecalledTask(Tsk(g, t));
    forall o: nat ensures CeilFitsAt(g.obj, x, o) { assert CeilFitsAt(g.obj, Tsk(g, t), o); }
    PlaceCore(g, t, x, false, None, None);
    RecallRelocates(c, t);
    RelStep(c, Recalled(c, t), g, None, t, x, RecalledBlock(c.tcb[t]), false);
  }

  lemma RecallReady(c: C, g: K, t: nat)
    requires Models(c, g, None, None) && t < |c.tcb| && !c.tcb[t].stat.Runnable? && !c.tcb[t].stat.Dormant?
    ensures t !in c.ready && c.tcb[t].pri < LEVELS
    ensures c.tcb[t].stat.Waiting? ==> c.tcb[t].winfo.Timer? && (t in c.tmev <==> c.tcb[t].winfo.on)
    ensures var g1 := Place(g, t, RecalledTask(Tsk(g, t)), false); Models(Recalled(c, t), g1, None, None) && g1.obj == g.obj
  {
    TaskFacts(c, g, None, None, t);
    RecallStep(c, g, t);
  }

  lemma SameReason(c: C, g: K, t: nat)
    requires Models(c, g, None, None) && IsWaiting(g, t)
    ensures t < |c.tcb| && c.tcb[t].stat == Tsk(g, t).stat
  {
    assert TaskAt(c.tcb, c.prevmtx, g, t, None);
  }

  // ---------- chg_pri ----------

  lemma NewBaseCore(g: K, t: nat, p: nat)
    requires Core(g, None, None) && t < |g.tsk| && p < TNUM_TPRI && !Tsk(g, t).stat.Dormant? && !CeilingBars(g, t, p)
    ensures var x := Tsk(g, t).(bpri := p);
      && (HoldsCeil(g, t) ==> EffPri(g.obj, p, x.locks) == Pri(g, t) && Core(SetTsk(g, t, x), None, None))
      && (!HoldsCeil(g, t) ==> EffPri(g.obj, p, x.locks) == p && Core(Replace(g, t, x, false), None, None))
  {
    var x := Tsk(g, t).(bpri := p);
    FitsSelf(g, t, None, None);
    forall o: nat ensures CeilFitsAt(g.obj, x, o) {}
    if HoldsCeil(g, t) {
      assert forall o :: o in x.locks && IsCeil(g.obj, o) ==> CeilFitsAt(g.obj, Tsk(g, t), o) && CeilFitsAt(g.obj, x, o);
      CeilingRules(g.obj, Tsk(g, t).bpri, p, x.locks);
      SetCore(g, t, x, None, None);
    } else {
      EffPriIsMin(g.obj, p, x.locks);
      var g1 := Replace(g, t, x, false);
      ReplaceFacts(g, t, x, false);
      MovedWell(g, g1, t, x);
      MovedLock(g, g1, t, x, None, None);
      MovedCond(g, g1, t, x);
    }
  }

  /** With a ceiling mutex locked, a new base priority makes no difference yet. */
  lemma NewBaseHeld(c: C, g: K, t: nat, p: nat)
    requires Models(c, g, None, None) && t < |c.tcb| && p < TNUM_TPRI && !Tsk(g, t).stat.Dormant? && !CeilingBars(g, t, p)
    requires HoldsCeil(g, t)
    ensures Models(c.(tcb := c.tcb[t := c.tcb[t].(bpri := p)]), SetTsk(g, t, Tsk(g, t).(bpri := p)), None, None)
  {
    assert TaskAt(c.tcb, c.prevmtx, g, t, None);
    NewBaseCore(g, t, p);
    ChainsStay(c, g, None);
    RelSame(c, c.(tcb := c.tcb[t := c.tcb[t].(bpri := p)]), g, t, Tsk(g, t).(bpri := p));
  }

  lemma NewBaseFree(c: C, g: K, t: nat, p: nat)
    requires Models(c, g, None, None) && t < |c.tcb| && p < TNUM_TPRI && !Tsk(g, t).stat.Dormant? && !CeilingBars(g, t, p)
    requires !HoldsCeil(g, t)
    ensures var x := Tsk(g, t).(bpri := p);
      Models(Repri(c.(tcb := c.tcb[t := c.tcb[t].(bpri := p)]), g.obj, t, p, false), Replace(g, t, x, false), None, None)
    ensures Replace(g, t, Tsk(g, t).(bpri := p), false).obj == g.obj
  {
    assert TaskAt(c.tcb, c.prevmtx, g, t, None);
    NewBaseCore(g, t, p);
    ChainsStay(c, g, None);
    ReplaceFacts(g, t, Tsk(g, t).(bpri := p), false);
    RelReplace(c, c.(tcb := c.tcb[t := c.tcb[t].(bpri := p)]), g, t, Tsk(g, t).(bpri := p), false);
  }

  lemma NewPriorityStep(c: C, g: K, t: nat, p: nat)
    requires Models(c, g, None, None) && t < |c.tcb| && p < TNUM_TPRI && !c.tcb[t].stat.Dormant? && !CeilingBars(g, t, p)
    requires !HoldsCeil(g, t)
    ensures c.tcb[t].stat.Runnable? <==> t in c.ready
    ensures c.tcb[t].stat.Waiting? && c.tcb[t].stat.why.On? ==>
        c.tcb[t].stat.why.obj < |c.wq| && var q := c.wq[c.tcb[t].stat.why.obj]; forall i :: 0 <= i < |q| ==> q[i] < |c.tcb|
    ensures var x := Tsk(g, t).(bpri := p);
      && Models(Repri(c.(tcb := c.tcb[t := c.tcb[t].(bpri := p)]), g.obj, t, p, false), Replace(g, t, x, false), None, None)
      && Replace(g, t, x, false).obj == g.obj
  {
    TaskFacts(c, g, None, None, t);
    if c.tcb[t].stat.Waiting? && c.tcb[t].stat.why.On? { QueueMembers(c, g, None, None, c.tcb[t].stat.why.obj); }
    NewBaseFree(c, g, t, p);
  }

  // ---------- unl_mtx and ini_mtx ----------

  /** Taking the latest lock off the chain. */
  lemma UnlinkLast(c: C, g: K, t: nat, m: nat)
    requires Models(c, g, None, None) && t < |c.tcb|
    ensures c.tcb[t].lastmtx == Some(m) <==> Tsk(g, t).locks != [] && Tsk(g, t).locks[|Tsk(g, t).locks| - 1] == m
    ensures c.tcb[t].lastmtx == Some(m) ==>
      && m < |c.prevmtx| && m in Tsk(g, t).locks && Chain(c.prevmtx, c.prevmtx[m], Remove(Tsk(g, t).locks, m))
  {
    assert TaskAt(c.tcb, c.prevmtx, g, t, None);
    if c.tcb[t].lastmtx == Some(m) {
      var locks := Tsk(g, t).locks;
      var n := |locks| - 1;
      assert LocksAt(g, t, None) && locks[n] in locks;
      forall i | 0 <= i < n ensures locks[i] != m { assert Apart(locks, i, n); }
      FirstIndex(locks, m, n);
      assert Remove(locks, m) == locks[..n];
    }
  }

  /** The links of one task's locks are nobody else's. */
  lemma OthersKeep(c: C, g: K, t: nat, k: nat, x: Option<nat>)
    requires Models(c, g, None, None) && k in Tsk(g, t).locks && k < |c.prevmtx|
    ensures forall z: nat :: z < |c.tcb| && z != t ==> Chain(c.prevmtx[k := x], c.tcb[z].lastmtx, Tsk(g, z).locks)
  {
    forall z: nat | z < |c.tcb| && z != t ensures Chain(c.prevmtx[k := x], c.tcb[z].lastmtx, Tsk(g, z).locks) {
      assert TaskAt(c.tcb, c.prevmtx, g, z, None) && LockAt(g, z, k, None) && LockAt(g, t, k, None);
      ChainFrame(c.prevmtx, c.tcb[z].lastmtx, Tsk(g, z).locks, k, x);
    }
  }

  /** The mutex is out of its owner's chain and has no waiters: nobody owns it. */
  lemma DisownStep(c: C, c1: C, g: K, h: nat, m: nat)
    requires Models(c, g, None, None) && Que(g, m) == [] && Own(g, m) == Some(h) && h < |c.tcb| && m < |c.loctsk|
    requires |c1.prevmtx| == |c.prevmtx| && |c1.tcb| == |c.tcb|
    requires c1 == c.(tcb := c.tcb[h := c.tcb[h].(lastmtx := c1.tcb[h].lastmtx)], prevmtx := c1.prevmtx)
    requires Chain(c1.prevmtx, c1.tcb[h].lastmtx, Remove(Tsk(g, h).locks, m))
    requires forall z: nat :: z < |c.tcb| && z != h ==> Chain(c1.prevmtx, c.tcb[z].lastmtx, Tsk(g, z).locks)
    ensures var locks := Remove(Tsk(g, h).locks, m);
      && Models(Dropped(c1.(loctsk := c.loctsk[m := None]), g.obj, h, m, EffPri(g.obj, c.tcb[h].bpri, locks)),
                SetOwn(Relock(g, h, locks), m, None), None, None)
      && Relock(g, h, locks).obj == g.obj
  {
    var locks := Remove(Tsk(g, h).locks, m);
    var n := EffPri(g.obj, c.tcb[h].bpri, locks);
    assert OwnAt(g, m, None);
    DropStep(c, c1, g, h, m);
    RelockFacts(g, h, locks);
    QueueStays(g, Relock(g, h, locks), m);
    ReleaseNoneStep(Dropped(c1, g.obj, h, m, n), Relock(g, h, locks), None, m);
    DroppedOwner(c1, g.obj, h, m, n);
  }

  lemma DroppedOwner(c1: C, obj: seq<Obj>, t: nat, m: nat, n: nat)
    requires t < |c1.tcb| && m < |c1.loctsk|
    ensures var c2 := Dropped(c1, obj, t, m, n);
      m < |c2.loctsk| && Dropped(c1.(loctsk := c1.loctsk[m := None]), obj, t, m, n) == c2.(loctsk := c2.loctsk[m := None])
  {
    RepriIs(c1, obj, t, n, true);
    RepriIs(c1.(loctsk := c1.loctsk[m := None]), obj, t, n, true);
  }

  /** The task drops the latest of its locks. */
  function Popped(c: C, t: nat): C
    requires t < |c.tcb| && c.tcb[t].lastmtx.Some? && c.tcb[t].lastmtx.value < |c.prevmtx|
  {
    c.(tcb := c.tcb[t := c.tcb[t].(lastmtx := c.prevmtx[c.tcb[t].lastmtx.value])])
  }

  /** What `change_priority` asks of the control block it is called for. */
  lemma DropReady(c: C, g: K, t: nat)
    requires Models(c, g, None, None) && t < |c.tcb|
    ensures (c.tcb[t].stat.Runnable? <==> t in c.ready) && c.tcb[t].bpri < TNUM_TPRI && c.tcb[t].bpri == Tsk(g, t).bpri
    ensures c.tcb[t].stat.Waiting? && c.tcb[t].stat.why.On? ==>
        c.tcb[t].stat.why.obj < |c.wq| && var q := c.wq[c.tcb[t].stat.why.obj]; forall i :: 0 <= i < |q| ==> q[i] < |c.tcb|
  {
    TaskFacts(c, g, None, None, t);
    assert PriOk(g, t);
    if c.tcb[t].stat.Waiting? && c.tcb[t].stat.why.On? { QueueMembers(c, g, None, None, c.tcb[t].stat.why.obj); }
  }

  lemma DropLastStep(c: C, g: K, t: nat, m: nat)
    requires Models(c, g, None, None) && t < |c.tcb| && c.tcb[t].lastmtx == Some(m)
    ensures m < |c.prevmtx| && Chain(c.prevmtx, c.prevmtx[m], Remove(Tsk(g, t).locks, m))
    ensures (c.tcb[t].stat.Runnable? <==> t in c.ready) && c.tcb[t].bpri < TNUM_TPRI
    ensures c.tcb[t].stat.Waiting? && c.tcb[t].stat.why.On? ==>
        c.tcb[t].stat.why.obj < |c.wq| && var q := c.wq[c.tcb[t].stat.why.obj]; forall i :: 0 <= i < |q| ==> q[i] < |c.tcb|
    ensures var locks := Remove(Tsk(g, t).locks, m);
      && Models(Dropped(Popped(c, t), g.obj, t, m, EffPri(g.obj, c.tcb[t].bpri, locks)), Relock(g, t, locks), None, Some(m))
      && Relock(g, t, locks).obj == g.obj
  {
    UnlinkLast(c, g, t, m);
    ChainsStay(c, g, None);
    DropReady(c, g, t);
    DropStep(c, Popped(c, t), g, t, m);
  }

  lemma DisownFacts(c: C, g: K, h: nat, m: nat)
    requires Models(c, g, None, None) && Own(g, m) == Some(h)
    ensures h < |c.tcb| && Chain(c.prevmtx, c.tcb[h].lastmtx, Tsk(g, h).locks) && NoDup(Tsk(g, h).locks) && m in Tsk(g, h).locks
    ensures (c.tcb[h].stat.Runnable? <==> h in c.ready) && c.tcb[h].bpri < TNUM_TPRI
    ensures c.tcb[h].stat.Waiting? && c.tcb[h].stat.why.On? ==>
        c.tcb[h].stat.why.obj < |c.wq| && var q := c.wq[c.tcb[h].stat.why.obj]; forall i :: 0 <= i < |q| ==> q[i] < |c.tcb|
  {
    assert OwnAt(g, m, None) && LocksAt(g, h, None) && TaskAt(c.tcb, c.prevmtx, g, h, None);
    DropReady(c, g, h);
  }

  /** The owner's chain goes past the mutex: its beginning is `last`, and the link behind mutex `k` is `x`. */
  function Disowned(c: C, h: nat, m: nat, last: Option<nat>, k: nat, x: Option<nat>): C
    requires h < |c.tcb| && m < |c.loctsk| && k < |c.prevmtx|
  {
    c.(tcb := c.tcb[h := c.tcb[h].(lastmtx := last)], prevmtx := c.prevmtx[k := x], loctsk := c.loctsk[m := None])
  }

  lemma DisownedStep(c: C, g: K, h: nat, m: nat, last: Option<nat>, k: nat, x: Option<nat>)
    requires Models(c, g, None, None) && Que(g, m) == [] && Own(g, m) == Some(h) && h < |c.tcb| && m < |c.loctsk|
    requires k in Tsk(g, h).locks && k < |c.prevmtx| && Chain(c.prevmtx[k := x], last, Remove(Tsk(g, h).locks, m))
    ensures var locks := Remove(Tsk(g, h).locks, m);
      && Models(Dropped(Disowned(c, h, m, last, k, x), g.obj, h, m, EffPri(g.obj, c.tcb[h].bpri, locks)),
                SetOwn(Relock(g, h, locks), m, None), None, None)
      && SetOwn(Relock(g, h, locks), m, None).obj == g.obj
  {
    OthersKeep(c, g, h, k, x);
    DisownStep(c, c.(tcb := c.tcb[h := c.tcb[h].(lastmtx := last)], prevmtx := c.prevmtx[k := x]), g, h, m);
  }

  // ---------- the start ----------

  function InitialBlock(x: Task): TCB {
    TCB(x.stat, x.ipri, x.noactque, x.bpri, x.bpri, None, x.actque, x.wupque, x.raster, x.enater, x.winfo)
  }

  lemma InitialQueues(pri: seq<nat>, rq: seq<seq<nat>>)
    requires |rq| == LEVELS && forall k :: 0 <= k < |rq| ==> rq[k] == []
    ensures Queued(pri, rq, 0) && Flat(rq) == []
  {
    FlatEmpty(rq);
    StaysSmall(0, 0, LEVELS) by { PowPositive(LEVELS); }
    forall p: nat | p < LEVELS ensures BitAt(rq, 0, p) && RankedAt(pri, rq[p], 0 + p) { EmptyMap(p); }
  }

  lemma InitialRel(c: C, k: K)
    requires Initial(k) && |c.tcb| == |k.tsk| && |c.prevmtx| == |k.obj| && c.tmev == {} && c.dspflg
    requires k == K(k.tsk, k.obj, c.wq, c.semcnt, c.loctsk, c.ready, c.runtsk, c.enadsp, c.ipmopen, c.ctx)
    requires forall t :: 0 <= t < |k.tsk| ==> c.tcb[t] == InitialBlock(k.tsk[t])
    ensures Rel(c, k, None)
  {
    forall t: nat ensures TaskAt(c.tcb, c.prevmtx, k, t, None) && EventAt(c.tmev, k, t) {}
  }
}
