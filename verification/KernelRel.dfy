/** When the data of the kernel stands for a state of the specification. */
module KernelRel {
  import opened PriorityList
  import opened ReadyQueues
  import opened KernelSpec
  import opened KernelInv
  import opened KernelOps
  import opened KernelData

  /** The data of the kernel, the ready queues taken as one list. */
  datatype C = C(tcb: seq<TCB>, ready: seq<nat>, wq: seq<seq<nat>>, semcnt: seq<nat>, loctsk: seq<Option<nat>>,
                 prevmtx: seq<Option<nat>>, tmev: set<nat>, runtsk: Option<nat>, enadsp: bool, ipmopen: bool,
                 dspflg: bool, ctx: bool)

  /** The chain that starts at mutex `last` runs through `locks` from the end to the beginning. */
  ghost predicate Chain(prevmtx: seq<Option<nat>>, last: Option<nat>, locks: seq<nat>)
    decreases |locks|
  {
    if locks == [] then last == None
    else
      var n := |locks| - 1;
      last == Some(locks[n]) && locks[n] < |prevmtx| && Chain(prevmtx, prevmtx[locks[n]], locks[..n])
  }

  function ToTask(x: TCB, locks: seq<nat>): Task {
    Task(x.stat, x.ipri, x.noactque, x.bpri, locks, x.actque, x.wupque, x.raster, x.enater, x.winfo)
  }

  /** The control block of `t` agrees with the specification. A task `lim` that is being ended has
      left its queues, but its control block is brought up to date only at the end. */
  ghost predicate TaskAt(tcb: seq<TCB>, prevmtx: seq<Option<nat>>, g: K, t: nat, lim: Option<nat>) {
    t < |tcb| ==>
      && Chain(prevmtx, tcb[t].lastmtx, Tsk(g, t).locks)
      && (if Some(t) == lim then LimboAt(tcb[t], Tsk(g, t)) else BlockAt(tcb[t], g, t))
  }

  ghost predicate BlockAt(x: TCB, g: K, t: nat) {
    Tsk(g, t) == ToTask(x, Tsk(g, t).locks) && x.pri == Pri(g, t)
  }

  ghost predicate LimboAt(x: TCB, y: Task) {
    y == Ended(ToTask(x, y.locks))
  }

  ghost predicate EventAt(tmev: set<nat>, g: K, t: nat) {
    t in tmev <==> Timed(g, t)
  }

  ghost predicate Rel(c: C, g: K, lim: Option<nat>) {
    && g == K(g.tsk, g.obj, c.wq, c.semcnt, c.loctsk, c.ready, c.runtsk, c.enadsp, c.ipmopen, c.ctx)
    && |c.tcb| == |g.tsk| && |c.prevmtx| == |g.obj| && c.dspflg == Dsp(g)
    && (forall t: nat :: TaskAt(c.tcb, c.prevmtx, g, t, lim))
    && (forall t: nat :: EventAt(c.tmev, g, t))
  }

  // ---------- chains ----------

  /** A mutex outside the chain may be linked differently. */
  lemma {:induction false} ChainFrame(prevmtx: seq<Option<nat>>, last: Option<nat>, locks: seq<nat>, m: nat, x: Option<nat>)
    requires Chain(prevmtx, last, locks) && m !in locks && m < |prevmtx|
    ensures Chain(prevmtx[m := x], last, locks)
    decreases |locks|
  {
    if locks != [] {
      var n := |locks| - 1;
      ChainFrame(prevmtx, prevmtx[locks[n]], locks[..n], m, x);
    }
  }

  lemma ChainPush(prevmtx: seq<Option<nat>>, last: Option<nat>, locks: seq<nat>, m: nat)
    requires Chain(prevmtx, last, locks) && m !in locks && m < |prevmtx|
    ensures Chain(prevmtx[m := last], Some(m), locks + [m])
  {
    ChainFrame(prevmtx, last, locks, m, last);
    assert (locks + [m])[..|locks|] == locks;
  }

  // ---------- what the relation says about one task ----------

  lemma TaskFacts(c: C, g: K, lim: Option<nat>, free: Option<nat>, t: nat)
    requires Rel(c, g, lim) && Core(g, lim, free) && t < |c.tcb| && Some(t) != lim
    ensures var x := c.tcb[t];
      && ToTask(x, Tsk(g, t).locks) == Tsk(g, t) && x.pri == Pri(g, t) && x.pri <= x.bpri && x.pri < LEVELS && x.ipri < LEVELS
      && (t in c.ready <==> x.stat.Runnable?)
      && (x.stat.Waiting? ==> x.winfo.Timer? && (t in c.tmev <==> x.winfo.on))
      && (x.stat.Waiting? && x.stat.why.On? ==> x.stat.why.obj < |c.wq| && t in c.wq[x.stat.why.obj])
  {
    var y := Tsk(g, t);
    assert TaskAt(c.tcb, c.prevmtx, g, t, lim) && EventAt(c.tmev, g, t);
    assert PriOk(g, t) && ReadyAt(g, t) && TaskOk(y);
    EffPriIsMin(g.obj, y.bpri, y.locks);
    if y.stat.Waiting? && y.stat.why.On? {
      var o := y.stat.why.obj;
      assert QueInv(g, o) && QueAt(g, o, t);
    }
  }

  /** Stored and computed priorities agree, except for the task in limbo. */
  lemma PriosAgree(c: C, g: K, lim: Option<nat>)
    requires Rel(c, g, lim)
    ensures forall t: nat :: Some(t) != lim ==> At(Prios(c.tcb), t) == At(Pris(g), t)
  {
    forall t: nat | Some(t) != lim ensures At(Prios(c.tcb), t) == At(Pris(g), t) {
      assert TaskAt(c.tcb, c.prevmtx, g, t, lim);
    }
  }

  // ---------- a task moves ----------

  /** `t` has left the wait queue it was in. */
  function Dequeued(wq: seq<seq<nat>>, stat: Stat, t: nat): seq<seq<nat>> {
    match stat
    case Waiting(On(o), _) => if o < |wq| then wq[o := Remove(wq[o], t)] else wq
    case _ => wq
  }

  /** The concrete counterpart of `KernelSpec.Place` for a record that is in no wait queue. */
  ghost predicate Relocated(c: C, c1: C, t: nat, y: TCB, front: bool) {
    && t < |c.tcb| && !(y.stat.Waiting? && y.stat.why.On?)
    && c1 == c.(tcb := c.tcb[t := y], ready := c1.ready, wq := Dequeued(c.wq, c.tcb[t].stat, t), tmev := c1.tmev)
    && c1.ready == Placed(c, t, y, Prios(c1.tcb), front)
    && c1.tmev == if y.stat.Waiting? && y.winfo == Timer(true) then c.tmev + {t} else c.tmev - {t}
  }

  function Placed(c: C, t: nat, y: TCB, pri: seq<nat>, front: bool): seq<nat>
    requires t < |c.tcb|
  {
    var r := if c.tcb[t].stat.Runnable? then Remove(c.ready, t) else c.ready;
    if y.stat.Runnable? then Insert(pri, r, t, front) else r
  }

  lemma LeaveIs(g: K, t: nat)
    requires t < |g.tsk|
    ensures Leave(g, t) == g.(wq := Dequeued(g.wq, Tsk(g, t).stat, t), ready := if IsRunnable(g, t) then Remove(g.ready, t) else g.ready)
  {}

  lemma PlaceIdle(g: K, t: nat, x: Task, front: bool)
    requires t < |g.tsk| && !(x.stat.Waiting? && x.stat.why.On?)
    ensures var r := if IsRunnable(g, t) then Remove(g.ready, t) else g.ready;
      Place(g, t, x, front) == g.(tsk := g.tsk[t := x], wq := Dequeued(g.wq, Tsk(g, t).stat, t),
        ready := if x.stat.Runnable? then Insert(Pris(SetTsk(g, t, x)), r, t, front) else r)
  {
    LeaveIs(g, t);
    var s2 := SetTsk(Leave(g, t), t, x);
    assert Pris(s2) == Pris(SetTsk(g, t, x));
  }

  /** The task in limbo is in no queue. */
  lemma LimboNowhere(g: K, lim: nat)
    requires ReadyInv(g) && WaitInv(g) && Tsk(g, lim).stat.Dormant?
    ensures lim !in g.ready && forall o: nat :: lim !in Que(g, o)
  {
    assert ReadyAt(g, lim);
    forall o: nat ensures lim !in Que(g, o) { assert QueInv(g, o) && QueAt(g, o, lim); }
  }

  /** Agreement of all records after one has changed, along with the links of a mutex outside all chains. */
  lemma RecordsAfter(c: C, g: K, lim: Option<nat>, t: nat, x: Task, y: TCB, g1: K, tcb1: seq<TCB>,
                     prevmtx1: seq<Option<nat>>)
    requires Rel(c, g, lim) && t < |c.tcb| && Some(t) != lim && tcb1 == c.tcb[t := y]
    requires g1 == g.(tsk := g.tsk[t := x], ready := g1.ready, wq := g1.wq, own := g1.own)
    requires x == ToTask(y, x.locks) && y.pri == EffPri(g.obj, x.bpri, x.locks)
    requires Chain(prevmtx1, y.lastmtx, x.locks)
    requires forall z: nat :: z < |c.tcb| && z != t ==> Chain(prevmtx1, c.tcb[z].lastmtx, Tsk(g, z).locks)
    ensures forall z: nat :: TaskAt(tcb1, prevmtx1, g1, z, lim)
    ensures forall z: nat :: Some(z) != lim ==> At(Prios(tcb1), z) == At(Pris(g1), z)
  {
    forall z: nat ensures TaskAt(tcb1, prevmtx1, g1, z, lim)
                          && (Some(z) != lim ==> At(Prios(tcb1), z) == At(Pris(g1), z)) {
      assert TaskAt(c.tcb, c.prevmtx, g, z, lim);
      assert z != t ==> Tsk(g1, z) == Tsk(g, z) && Pri(g1, z) == Pri(g, z);
    }
  }

  lemma ChainsStay(c: C, g: K, lim: Option<nat>)
    requires Rel(c, g, lim)
    ensures forall z: nat :: z < |c.tcb| ==> Chain(c.prevmtx, c.tcb[z].lastmtx, Tsk(g, z).locks)
  {
    forall z: nat | z < |c.tcb| ensures Chain(c.prevmtx, c.tcb[z].lastmtx, Tsk(g, z).locks) {
      assert TaskAt(c.tcb, c.prevmtx, g, z, lim);
    }
  }

  lemma EventsAfter(c: C, g: K, lim: Option<nat>, t: nat, x: Task, g1: K, tmev1: set<nat>)
    requires Rel(c, g, lim) && t < |c.tcb|
    requires g1 == g.(tsk := g.tsk[t := x], ready := g1.ready, wq := g1.wq, own := g1.own)
    requires tmev1 == if x.stat.Waiting? && x.winfo == Timer(true) then c.tmev + {t} else c.tmev - {t}
    ensures forall z: nat :: EventAt(tmev1, g1, z)
  {
    forall z: nat ensures EventAt(tmev1, g1, z) { assert EventAt(c.tmev, g, z); }
  }

  lemma RelStep(c: C, c1: C, g: K, lim: Option<nat>, t: nat, x: Task, y: TCB, front: bool)
    requires Rel(c, g, lim) && ReadyInv(g) && WaitInv(g) && Relocated(c, c1, t, y, front) && Some(t) != lim
    requires lim.Some? ==> Tsk(g, lim.value).stat.Dormant?
    requires x == ToTask(y, x.locks) && y.pri == EffPri(g.obj, x.bpri, x.locks) && Chain(c.prevmtx, y.lastmtx, x.locks)
    ensures Rel(c1, Place(g, t, x, front), lim)
  {
    var g1 := Place(g, t, x, front);
    PlaceIdle(g, t, x, front);
    ChainsStay(c, g, lim);
    RecordsAfter(c, g, lim, t, x, y, g1, c1.tcb, c.prevmtx);
    EventsAfter(c, g, lim, t, x, g1, c1.tmev);
    assert TaskAt(c.tcb, c.prevmtx, g, t, lim);
    var r := if IsRunnable(g, t) then Remove(g.ready, t) else g.ready;
    assert forall z :: z in r ==> Some(z) != lim by {
      if lim.Some? { LimboNowhere(g, lim.value); RemoveFacts(g.ready, t); }
    }
    assert Pris(SetTsk(g, t, x)) == Pris(g1);
    InsertFrame(Prios(c1.tcb), Pris(g1), r, t, front);
  }

  /** The data stands for a state in which the invariant of tasks and queues holds. */
  ghost predicate Models(c: C, g: K, lim: Option<nat>, free: Option<nat>) {
    Rel(c, g, lim) && Core(g, lim, free) && (lim.Some? ==> Tsk(g, lim.value).stat.Dormant?)
  }

  /** The control block of a task whose wait is over. */
  function ReleasedBlock(x: TCB, er: ER): TCB {
    x.(stat := if x.stat.Waiting? && x.stat.sus then Suspended else Runnable, winfo := Result(er))
  }

  function OffQueue(c: C, t: nat): C
    requires t < |c.tcb|
  {
    c.(wq := Dequeued(c.wq, c.tcb[t].stat, t))
  }

  function OffTimer(c: C, t: nat): C { c.(tmev := c.tmev - {t}) }

  /** The task becomes runnable and joins its ready queue. */
  function Running(c: C, t: nat): C
    requires t < |c.tcb|
  {
    var tcb := c.tcb[t := c.tcb[t].(stat := Runnable)];
    c.(tcb := tcb, ready := Insert(Prios(tcb), c.ready, t, false))
  }

  /** What `make_non_wait` does. */
  function NonWaiting(c: C, t: nat): C
    requires t < |c.tcb| && c.tcb[t].stat.Waiting?
  {
    if c.tcb[t].stat.sus then c.(tcb := c.tcb[t := c.tcb[t].(stat := Suspended)])
    else
      var tcb := c.tcb[t := c.tcb[t].(stat := Runnable)];
      c.(tcb := tcb, ready := Insert(Prios(tcb), c.ready, t, false))
  }

  function Answered(c: C, t: nat, er: ER): C
    requires t < |c.tcb|
  {
    c.(tcb := c.tcb[t := c.tcb[t].(winfo := Result(er))])
  }

  function Unwaiting(c: C, t: nat, er: ER): C
    requires t < |c.tcb| && c.tcb[t].stat.Waiting?
  {
    NonWaiting(Answered(OffTimer(OffQueue(c, t), t), t, er), t)
  }

  lemma AnsweredIs(c: C, t: nat, er: ER)
    requires t < |c.tcb|
    ensures Answered(OffTimer(OffQueue(c, t), t), t, er) ==
      c.(tcb := c.tcb[t := c.tcb[t].(winfo := Result(er))], wq := Dequeued(c.wq, c.tcb[t].stat, t), tmev := c.tmev - {t})
  {}

  lemma LastUpdateWins<T>(q: seq<T>, t: nat, x: T, y: T)
    requires t < |q|
    ensures q[t := x][t := y] == q[t := y]
  {
    assert q[t := x][t := y] == q[t := y];
  }

  lemma NonWaitingIs(c: C, t: nat, er: ER, wq: seq<seq<nat>>, tmev: set<nat>)
    requires t < |c.tcb| && c.tcb[t].stat.Waiting?
    ensures var c1 := c.(tcb := c.tcb[t := c.tcb[t].(winfo := Result(er))], wq := wq, tmev := tmev);
      var tcb := c.tcb[t := ReleasedBlock(c.tcb[t], er)];
      NonWaiting(c1, t) == c.(tcb := tcb, wq := wq, tmev := tmev,
        ready := if tcb[t].stat.Runnable? then Insert(Prios(tcb), c.ready, t, false) else c.ready)
  {
    LastUpdateWins(c.tcb, t, c.tcb[t].(winfo := Result(er)), ReleasedBlock(c.tcb[t], er));
  }

  lemma UnwaitRelocates(c: C, t: nat, er: ER)
    requires t < |c.tcb| && c.tcb[t].stat.Waiting?
    ensures Relocated(c, Unwaiting(c, t, er), t, ReleasedBlock(c.tcb[t], er), false)
  {
    AnsweredIs(c, t, er);
    NonWaitingIs(c, t, er, Dequeued(c.wq, c.tcb[t].stat, t), c.tmev - {t});
  }

  /** Out of the wait queue and the time events, the result set, and on to the next state: this is what
      it means to release a task from its wait. */
  lemma UnwaitStep(c: C, g: K, lim: Option<nat>, free: Option<nat>, t: nat, er: ER)
    requires Models(c, g, lim, free) && IsWaiting(g, t)
    ensures t < |c.tcb| && c.tcb[t].stat.Waiting?
    ensures Models(Unwaiting(c, t, er), Unwait(g, t, er), lim, free) && Unwait(g, t, er).obj == g.obj
  {
    UnwaitRel(c, g, lim, t, er);
    UnwaitCore(g, t, er, lim, free);
  }

  lemma UnwaitRel(c: C, g: K, lim: Option<nat>, t: nat, er: ER)
    requires Rel(c, g, lim) && ReadyInv(g) && WaitInv(g) && IsWaiting(g, t) && (lim.Some? ==> Tsk(g, lim.value).stat.Dormant?)
    ensures t < |c.tcb| && c.tcb[t].stat.Waiting? && Rel(Unwaiting(c, t, er), Unwait(g, t, er), lim)
  {
    assert TaskAt(c.tcb, c.prevmtx, g, t, lim);
    UnwaitRelocates(c, t, er);
    RelStep(c, Unwaiting(c, t, er), g, lim, t, Released(Tsk(g, t), er), ReleasedBlock(c.tcb[t], er), false);
  }

  // ---------- waking, blocking, suspending ----------

  lemma WakeStep(c: C, g: K, lim: Option<nat>, free: Option<nat>, t: nat)
    requires Models(c, g, lim, free) && t < |g.tsk| && Some(t) != lim
    requires Tsk(g, t).stat.Dormant? || Tsk(g, t).stat.Suspended?
    ensures Models(Running(c, t), Wake(g, t), lim, free) && Wake(g, t).obj == g.obj
  {
    assert TaskAt(c.tcb, c.prevmtx, g, t, lim) && EventAt(c.tmev, g, t);
    var y := c.tcb[t].(stat := Runnable);
    assert c.tmev - {t} == c.tmev;
    WakeCore(g, t, lim, free);
    RelStep(c, Running(c, t), g, lim, t, Tsk(g, t).(stat := Runnable), y, false);
  }

  function Stopped(c: C, t: nat, stat: Stat): C
    requires t < |c.tcb|
  {
    c.(tcb := c.tcb[t := c.tcb[t].(stat := stat)], ready := Remove(c.ready, t))
  }

  /** What `make_wait` and `make_wait_tmout` do. */
  function Asleep(c: C, t: nat, why: Reason, timed: bool): C
    requires t < |c.tcb|
  {
    var c1 := Stopped(c, t, Waiting(why, false));
    c1.(tcb := c1.tcb[t := c1.tcb[t].(winfo := Timer(timed))], tmev := if timed then c.tmev + {t} else c.tmev)
  }

  /** What `wobj_queue_insert` does. */
  function Enqueued(c: C, t: nat, o: nat, tpri: bool): C
    requires o < |c.wq|
  {
    c.(wq := c.wq[o := if tpri then Insert(Prios(c.tcb), c.wq[o], t, false) else c.wq[o] + [t]])
  }

  function AsleepBlock(x: TCB, why: Reason, timed: bool): TCB {
    x.(stat := Waiting(why, false), winfo := Timer(timed))
  }

  lemma AsleepIs(c: C, t: nat, why: Reason, timed: bool)
    requires t < |c.tcb| && t !in c.tmev
    ensures Asleep(c, t, why, timed) == c.(tcb := c.tcb[t := AsleepBlock(c.tcb[t], why, timed)],
      ready := Remove(c.ready, t), tmev := if timed then c.tmev + {t} else c.tmev - {t})
  {
    var y := c.tcb[t].(stat := Waiting(why, false));
    assert c.tcb[t := y][t := y.(winfo := Timer(timed))] == c.tcb[t := y.(winfo := Timer(timed))];
    assert c.tmev - {t} == c.tmev;
  }

  lemma SleepStep(c: C, g: K, t: nat, why: Reason, timed: bool)
    requires Models(c, g, None, None) && IsRunnable(g, t) && !Tsk(g, t).raster && !why.On? && (why == Delay ==> timed)
    ensures t < |c.tcb| && Models(Asleep(c, t, why, timed), Block(g, t, why, timed), None, None)
    ensures Block(g, t, why, timed).obj == g.obj
  {
    assert TaskAt(c.tcb, c.prevmtx, g, t, None) && EventAt(c.tmev, g, t);
    AsleepIs(c, t, why, timed);
    BlockCore(g, t, why, timed);
    var x := Tsk(g, t).(stat := Waiting(why, false), winfo := Timer(timed));
    RelStep(c, Asleep(c, t, why, timed), g, None, t, x, AsleepBlock(c.tcb[t], why, timed), false);
  }

  lemma PlaceInQueue(g: K, t: nat, x: Task, o: nat)
    requires IsRunnable(g, t) && x.stat.Waiting? && x.stat.why == On(o) && o < |g.wq|
    ensures Place(g, t, x, false) == g.(tsk := g.tsk[t := x], ready := Remove(g.ready, t),
      wq := g.wq[o := if ByPriority(g.obj, o) then Insert(Pris(SetTsk(g, t, x)), g.wq[o], t, false) else g.wq[o] + [t]])
  {
    var s2 := SetTsk(Leave(g, t), t, x);
    assert Pris(s2) == Pris(SetTsk(g, t, x));
  }

  lemma BlockStep(c: C, g: K, t: nat, o: nat, timed: bool)
    requires Models(c, g, None, None) && IsRunnable(g, t) && !Tsk(g, t).raster && MayWait(g, t, o)
    requires IsCeil(g.obj, o) ==> Ceiling(g.obj, o) <= Tsk(g, t).bpri
    ensures t < |c.tcb| && o < |c.wq|
    ensures Models(Enqueued(Asleep(c, t, On(o), timed), t, o, ByPriority(g.obj, o)), Block(g, t, On(o), timed), None, None)
    ensures Block(g, t, On(o), timed).obj == g.obj
  {
    assert TaskAt(c.tcb, c.prevmtx, g, t, None);
    BlockCore(g, t, On(o), timed);
    BlockRel(c, g, t, o, timed);
  }

  lemma EnqueuedRel(c: C, c1: C, g: K, g1: K, t: nat, x: Task, o: nat)
    requires Rel(c, g, None) && t < |c.tcb| && o < |c.wq| && |c1.tcb| == |c.tcb|
    requires x.stat.Waiting? && x == ToTask(c1.tcb[t], Tsk(g, t).locks) && x.locks == Tsk(g, t).locks
    requires c1.tcb[t].pri == EffPri(g.obj, x.bpri, x.locks) && c1.tcb[t].lastmtx == c.tcb[t].lastmtx
    requires c1 == c.(tcb := c.tcb[t := c1.tcb[t]], ready := c1.ready,
      tmev := if x.winfo == Timer(true) then c.tmev + {t} else c.tmev - {t})
    requires g1 == g.(tsk := g.tsk[t := x], ready := c1.ready,
      wq := g.wq[o := if ByPriority(g.obj, o) then Insert(Pris(SetTsk(g, t, x)), g.wq[o], t, false) else g.wq[o] + [t]])
    ensures Rel(Enqueued(c1, t, o, ByPriority(g.obj, o)), g1, None)
  {
    ChainsStay(c, g, None);
    RecordsAfter(c, g, None, t, x, c1.tcb[t], g1, c1.tcb, c.prevmtx);
    EventsAfter(c, g, None, t, x, g1, c1.tmev);
    assert Pris(SetTsk(g, t, x)) == Pris(g1);
    InsertFrame(Prios(c1.tcb), Pris(g1), c.wq[o], t, false);
  }

  lemma BlockRel(c: C, g: K, t: nat, o: nat, timed: bool)
    requires Rel(c, g, None) && IsRunnable(g, t) && o < |c.wq|
    ensures t < |c.tcb|
    ensures Rel(Enqueued(Asleep(c, t, On(o), timed), t, o, ByPriority(g.obj, o)), Block(g, t, On(o), timed), None)
  {
    assert TaskAt(c.tcb, c.prevmtx, g, t, None) && EventAt(c.tmev, g, t);
    AsleepIs(c, t, On(o), timed);
    var x := Tsk(g, t).(stat := Waiting(On(o), false), winfo := Timer(timed));
    PlaceInQueue(g, t, x, o);
    EnqueuedRel(c, Asleep(c, t, On(o), timed), g, Block(g, t, On(o), timed), t, x, o);
  }

  lemma SuspendStep(c: C, g: K, t: nat)
    requires Models(c, g, None, None) && IsRunnable(g, t) && Core(Place(g, t, Tsk(g, t).(stat := Suspended), false), None, None)
    ensures t < |c.tcb|
    ensures Models(Stopped(c, t, Suspended), Place(g, t, Tsk(g, t).(stat := Suspended), false), None, None)
    ensures Place(g, t, Tsk(g, t).(stat := Suspended), false).obj == g.obj
  {
    assert TaskAt(c.tcb, c.prevmtx, g, t, None) && EventAt(c.tmev, g, t);
    var y := c.tcb[t].(stat := Suspended);
    assert c.tmev - {t} == c.tmev;
    PlaceMoved(g, t, Tsk(g, t).(stat := Suspended), false);
    RelStep(c, Stopped(c, t, Suspended), g, None, t, Tsk(g, t).(stat := Suspended), y, false);
  }

  // ---------- records ----------

  /** A record changes without a move, and its priority stays. */
  lemma RelSame(c: C, c1: C, g: K, t: nat, x: Task)
    requires Rel(c, g, None) && t < |c.tcb| && |c1.prevmtx| == |c.prevmtx| && |c1.tcb| == |c.tcb|
    requires c1 == c.(tcb := c.tcb[t := c1.tcb[t]], prevmtx := c1.prevmtx)
    requires x == ToTask(c1.tcb[t], x.locks) && c1.tcb[t].pri == EffPri(g.obj, x.bpri, x.locks)
    requires Chain(c1.prevmtx, c1.tcb[t].lastmtx, x.locks)
    requires forall z: nat :: z < |c.tcb| && z != t ==> Chain(c1.prevmtx, c.tcb[z].lastmtx, Tsk(g, z).locks)
    requires x.stat.Waiting? == IsWaiting(g, t) && x.winfo == Tsk(g, t).winfo
    ensures Rel(c1, SetTsk(g, t, x), None)
  {
    RecordsAfter(c, g, None, t, x, c1.tcb[t], SetTsk(g, t, x), c1.tcb, c1.prevmtx);
    forall z: nat ensures EventAt(c1.tmev, SetTsk(g, t, x), z) { assert EventAt(c.tmev, g, z); }
  }

  lemma FlagStep(c: C, g: K, t: nat, y: TCB)
    requires Models(c, g, None, None) && t < |c.tcb|
    requires y == c.tcb[t].(stat := y.stat, actque := y.actque, wupque := y.wupque, raster := y.raster, enater := y.enater)
    requires y.stat.Waiting? == c.tcb[t].stat.Waiting? && Core(SetTsk(g, t, ToTask(y, Tsk(g, t).locks)), None, None)
    ensures Models(c.(tcb := c.tcb[t := y]), SetTsk(g, t, ToTask(y, Tsk(g, t).locks)), None, None)
  {
    assert TaskAt(c.tcb, c.prevmtx, g, t, None);
    ChainsStay(c, g, None);
    RelSame(c, c.(tcb := c.tcb[t := y]), g, t, ToTask(y, Tsk(g, t).locks));
  }
}
