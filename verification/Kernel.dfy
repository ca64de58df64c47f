/** The kernel with its own data: control blocks, sixteen ready queues with a bitmap, a cached task to
    run, stored priorities and chains of locks, all updated in place.
  */
module Kernel {
  import opened Bitmap
  import opened PriorityList
  import opened ReadyQueues
  import opened KernelSpec
  import opened KernelInv
  import opened KernelOps
  import opened KernelRuns
  import opened KernelData
  import opened KernelRel
  import opened KernelLocks
  import opened KernelCalls

  class Kernel {
    const obj: seq<Obj>
    var tcb: seq<TCB>
    var readyq: seq<seq<nat>>
    var primap: nat
    var schedtsk: Option<nat>
    var runtsk: Option<nat>
    var dspflg: bool
    var enadsp: bool
    var ipmopen: bool
    var intctx: bool
    var wq: seq<seq<nat>>
    var semcnt: seq<nat>
    var loctsk: seq<Option<nat>>
    var prevmtx: seq<Option<nat>>
    var tmev: set<nat>
    ghost var g: K

    ghost predicate Cached()
      reads `tcb, `readyq, `primap, `schedtsk, `runtsk, `dspflg
    {
      Remembered(Prios(tcb), readyq, primap, dspflg, schedtsk, runtsk)
    }

    // ---------- the state it stands for ----------

    ghost function Con(): C
      reads `tcb, `readyq, `wq, `semcnt, `loctsk, `prevmtx, `tmev, `runtsk, `enadsp, `ipmopen, `dspflg, `intctx
    {
      C(tcb, Flat(readyq), wq, semcnt, loctsk, prevmtx, tmev, runtsk, enadsp, ipmopen, dspflg, intctx)
    }

    // ---------- task.c: the ready queues ----------

    /** The first task of the first queue in use. */
    method SearchSchedtsk() returns (t: nat)
      requires Queued(Prios(tcb), readyq, primap) && Flat(readyq) != []
      ensures t == Flat(readyq)[0]
    {
      MapEmpty(Prios(tcb), readyq, primap);
      var schedpri := BitmapSearch(primap);
      HeadFound(Prios(tcb), readyq, primap, schedpri);
      t := readyq[schedpri][0];
    }

    method SetDspflg()
      requires Queued(Prios(tcb), readyq, primap) && Flat(readyq) != []
      modifies `dspflg, `schedtsk
      ensures dspflg && Cached()
    {
      dspflg := true;
      var t := SearchSchedtsk();
      schedtsk := Some(t);
    }

    method MakeRunnable(t: nat)
      requires Cached() && t < |tcb| && tcb[t].pri < LEVELS && t !in Flat(readyq)
      modifies `readyq, `primap, `schedtsk
      ensures Cached() && Flat(readyq) == Insert(Prios(tcb), old(Flat(readyq)), t, false)
    {
      var pri := tcb[t].pri;
      ghost var rq', sched' := JoinEnd(Prios(tcb), readyq, primap, dspflg, schedtsk, runtsk, t);
      readyq := readyq[pri := readyq[pri] + [t]];
      primap := Set(primap, pri);
      if dspflg {
        if schedtsk == None || pri < tcb[schedtsk.value].pri {
          schedtsk := Some(t);
        }
      }
      assert readyq == rq' && Flat(rq') == Insert(Prios(tcb), Flat(old(readyq)), t, false);
      assert schedtsk == sched';
    }

    method MakeNonRunnable(t: nat)
      requires Cached() && t in Flat(readyq) && (schedtsk == Some(t) ==> dspflg)
      modifies `readyq, `primap, `schedtsk
      ensures Cached() && Con() == old(Con()).(ready := Remove(old(Flat(readyq)), t))
    {
      QueuedLeave(Prios(tcb), readyq, primap, t);
      LeaveHead(Flat(readyq), t);
      var pri := tcb[t].pri;
      readyq := readyq[pri := Remove(readyq[pri], t)];
      if readyq[pri] == [] {
        primap := Clear(primap, pri);
        if schedtsk == Some(t) {
          assert dspflg;
          MapEmpty(Prios(tcb), readyq, primap);
          if primap == 0 {
            schedtsk := None;
          } else {
            var h := SearchSchedtsk();
            schedtsk := Some(h);
          }
        }
      } else {
        if schedtsk == Some(t) {
          assert dspflg;
          BestQueue(Prios(tcb), old(readyq), readyq, t);
          schedtsk := Some(readyq[pri][0]);
        }
      }
    }

    /** From the ready queue of the old priority to that of the new one. */
    method MoveInQueues(t: nat, newpri: nat, mtxmode: bool)
      requires Queued(Prios(tcb), readyq, primap) && t in Flat(readyq) && t < |tcb| && newpri < LEVELS
      modifies `tcb, `readyq, `primap
      ensures tcb == old(tcb)[t := old(tcb)[t].(pri := newpri)] && Prios(tcb) == Prios(old(tcb))[t := newpri]
      ensures Queued(Prios(tcb), readyq, primap) && readyq[newpri] != []
      ensures Flat(readyq) == Insert(Prios(tcb), Remove(old(Flat(readyq)), t), t, mtxmode)
      ensures MovedHead(Prios(old(tcb)), old(readyq), readyq, t, newpri)
    {
      QueuedMove(Prios(tcb), readyq, primap, t, newpri, mtxmode);
      assert Prios(tcb[t := tcb[t].(pri := newpri)]) == Prios(tcb)[t := newpri];
      var oldpri := tcb[t].pri;
      tcb := tcb[t := tcb[t].(pri := newpri)];
      readyq := readyq[oldpri := Remove(readyq[oldpri], t)];
      if readyq[oldpri] == [] {
        primap := Clear(primap, oldpri);
      }
      if mtxmode {
        readyq := readyq[newpri := [t] + readyq[newpri]];
      } else {
        readyq := readyq[newpri := readyq[newpri] + [t]];
      }
      primap := Set(primap, newpri);
    }

    /** `change_priority` for a runnable task. */
    method ChangeReady(t: nat, newpri: nat, mtxmode: bool)
      requires Cached() && t in Flat(readyq) && t < |tcb| && newpri < LEVELS
      modifies `tcb, `readyq, `primap, `schedtsk
      ensures Cached() && tcb == old(tcb)[t := old(tcb)[t].(pri := newpri)]
      ensures Flat(readyq) == Insert(Prios(tcb), Remove(old(Flat(readyq)), t), t, mtxmode)
    {
      var oldpri := tcb[t].pri;
      MoveInQueues(t, newpri, mtxmode);
      if dspflg {
        if schedtsk == Some(t) {
          if newpri >= oldpri {
            var h := SearchSchedtsk();
            schedtsk := Some(h);
          }
        } else {
          if newpri <= tcb[schedtsk.value].pri {
            schedtsk := Some(readyq[newpri][0]);
          }
        }
      }
    }

    method RotateReadyQueue(p: nat)
      requires Cached() && p < LEVELS
      modifies `readyq, `schedtsk
      ensures Cached() && Flat(readyq) == Rotated(Prios(tcb), old(readyq), p)
    {
      OnlyOne(Prios(tcb), readyq, primap, p);
      if readyq[p] != [] && |readyq[p]| > 1 {
        QueuedRotate(Prios(tcb), readyq, primap, p);
        var entry := readyq[p][0];
        readyq := readyq[p := readyq[p][1..] + [entry]];
        if dspflg {
          if schedtsk == Some(entry) {
            schedtsk := Some(readyq[p][0]);
          }
        }
      }
    }

    ghost predicate Stands(lim: Option<nat>, free: Option<nat>)
      reads this
    {
      Cached() && Models(Con(), g, lim, free) && g.obj == obj
    }

    ghost predicate Valid()
      reads this
    {
      Stands(None, None) && Inv(g)
    }

    // ---------- wait.h and wait.c ----------

    method WaitDequeueWobj(t: nat)
      requires t < |tcb|
      modifies `wq
      ensures Con() == OffQueue(old(Con()), t)
    {
      if tcb[t].stat.Waiting? && tcb[t].stat.why.On? {
        var o := tcb[t].stat.why.obj;
        if o < |wq| { wq := wq[o := Remove(wq[o], t)]; }
      }
    }

    /** Reads the union as a timer pointer, so the result must not have been written yet. */
    method WaitDequeueTmevtb(t: nat)
      requires t < |tcb| && tcb[t].winfo.Timer? && (t in tmev <==> tcb[t].winfo.on)
      modifies `tmev
      ensures Con() == OffTimer(old(Con()), t)
    {
      if tcb[t].winfo.on { tmev := tmev - {t}; }
    }

    method SetStat(t: nat, stat: Stat)
      requires Cached() && t < |tcb|
      modifies `tcb
      ensures Cached() && Con() == old(Con()).(tcb := old(tcb)[t := old(tcb)[t].(stat := stat)])
      ensures Prios(tcb) == Prios(old(tcb))
    {
      SamePrios(tcb, t, tcb[t].(stat := stat));
      tcb := tcb[t := tcb[t].(stat := stat)];
    }

    /** The state changes to runnable and the task joins its ready queue. */
    method BecomeRunnable(t: nat)
      requires Cached() && t < |tcb| && tcb[t].pri < LEVELS && t !in Flat(readyq)
      modifies `tcb, `readyq, `primap, `schedtsk
      ensures Cached() && Con() == Running(old(Con()), t)
    {
      ghost var c := Running(Con(), t);
      SetStat(t, Runnable);
      MakeRunnable(t);
      assert Con() == c;
    }

    method MakeNonWait(t: nat)
      requires Cached() && t < |tcb| && tcb[t].stat.Waiting? && tcb[t].pri < LEVELS && t !in Flat(readyq)
      modifies `tcb, `readyq, `primap, `schedtsk
      ensures Cached() && Con() == NonWaiting(old(Con()), t)
    {
      if !tcb[t].stat.sus {
        BecomeRunnable(t);
      } else {
        SetStat(t, Suspended);
      }
    }

    method SetResult(t: nat, er: ER)
      requires Cached() && t < |tcb|
      modifies `tcb
      ensures Cached() && Con() == Answered(old(Con()), t, er)
    {
      SamePrios(tcb, t, tcb[t].(winfo := Result(er)));
      tcb := tcb[t := tcb[t].(winfo := Result(er))];
    }

    method QueueInsertTpri(o: nat, t: nat)
      requires o < |wq| && t < |tcb| && forall i :: 0 <= i < |wq[o]| ==> wq[o][i] < |tcb|
      modifies `wq
      ensures wq == old(wq)[o := Insert(Prios(tcb), old(wq)[o], t, false)]
    {
      var pri := tcb[t].pri;
      var k := 0;
      while k < |wq[o]| && tcb[wq[o][k]].pri <= pri
        invariant k <= |wq[o]|
        invariant forall i :: 0 <= i < k ==> At(Prios(tcb), wq[o][i]) <= pri
      {
        k := k + 1;
      }
      SlotUnique(Prios(tcb), wq[o], pri, false, k);
      wq := wq[o := wq[o][..k] + [t] + wq[o][k..]];
    }

    method WobjQueueInsert(t: nat, o: nat)
      requires o < |wq| && t < |tcb| && forall i :: 0 <= i < |wq[o]| ==> wq[o][i] < |tcb|
      modifies `wq
      ensures Con() == Enqueued(old(Con()), t, o, ByPriority(obj, o))
    {
      if ByPriority(obj, o) {
        QueueInsertTpri(o, t);
      } else {
        wq := wq[o := wq[o] + [t]];
      }
    }

    method WobjChangePriority(o: nat, t: nat)
      requires o < |wq| && t < |tcb| && forall i :: 0 <= i < |wq[o]| ==> wq[o][i] < |tcb|
      modifies `wq
      ensures Con() == old(Con()).(wq := Requeued(old(wq), obj, Prios(tcb), t, o))
    {
      if ByPriority(obj, o) {
        wq := wq[o := Remove(wq[o], t)];
        QueueInsertTpri(o, t);
      }
    }

    /** A runnable task changes to state `stat` and leaves its ready queue. */
    method Stop(t: nat, stat: Stat)
      requires Cached() && t < |tcb| && t in Flat(readyq) && (schedtsk == Some(t) ==> dspflg)
      modifies `tcb, `readyq, `primap, `schedtsk
      ensures Cached() && Con() == Stopped(old(Con()), t, stat)
    {
      SetStat(t, stat);
      MakeNonRunnable(t);
    }

    /** The wait information block: a time event, unless the task waits forever. */
    method SetTmevtb(t: nat, timed: bool)
      requires Cached() && t < |tcb|
      modifies `tcb, `tmev
      ensures Cached()
      ensures Con() == old(Con()).(tcb := old(tcb)[t := old(tcb)[t].(winfo := Timer(timed))],
                                   tmev := if timed then old(tmev) + {t} else old(tmev))
    {
      SamePrios(tcb, t, tcb[t].(winfo := Timer(timed)));
      tcb := tcb[t := tcb[t].(winfo := Timer(timed))];
      if timed {
        tmev := tmev + {t};
      }
    }

    /** The running task goes to sleep, with a time event unless it waits forever. */
    method MakeWait(t: nat, why: Reason, tmo: nat)
      requires Cached() && t < |tcb| && t in Flat(readyq) && dspflg
      modifies `tcb, `readyq, `primap, `schedtsk, `tmev
      ensures Cached() && Con() == Asleep(old(Con()), t, why, tmo != TMO_FEVR)
    {
      Stop(t, Waiting(why, false));
      SetTmevtb(t, tmo != TMO_FEVR);
    }

    /** `change_priority` */
    method ChangePriority(t: nat, newpri: nat, mtxmode: bool)
      requires Cached() && t < |tcb| && newpri < LEVELS && (tcb[t].stat.Runnable? <==> t in Flat(readyq))
      requires tcb[t].stat.Waiting? && tcb[t].stat.why.On? ==>
        tcb[t].stat.why.obj < |wq| && var q := wq[tcb[t].stat.why.obj]; forall i :: 0 <= i < |q| ==> q[i] < |tcb|
      modifies `tcb, `readyq, `primap, `schedtsk, `wq
      ensures Cached() && Con() == Repri(old(Con()), obj, t, newpri, mtxmode)
    {
      if tcb[t].stat.Runnable? {
        ChangeRunnable(t, newpri, mtxmode);
      } else {
        ChangeIdle(t, newpri, mtxmode);
      }
    }

    method ChangeRunnable(t: nat, newpri: nat, mtxmode: bool)
      requires Cached() && t in Flat(readyq) && t < |tcb| && tcb[t].stat.Runnable? && newpri < LEVELS
      modifies `tcb, `readyq, `primap, `schedtsk
      ensures Cached() && Con() == Repri(old(Con()), obj, t, newpri, mtxmode)
    {
      RepriReady(Con(), obj, t, newpri, mtxmode);
      ghost var c := Repri(Con(), obj, t, newpri, mtxmode);
      ChangeReady(t, newpri, mtxmode);
      assert Con() == c;
    }

    /** The same for a task that is not runnable. */
    method ChangeIdle(t: nat, newpri: nat, ghost mtxmode: bool)
      requires Cached() && t < |tcb| && newpri < LEVELS && !tcb[t].stat.Runnable? && t !in Flat(readyq)
      requires tcb[t].stat.Waiting? && tcb[t].stat.why.On? ==>
        tcb[t].stat.why.obj < |wq| && var q := wq[tcb[t].stat.why.obj]; forall i :: 0 <= i < |q| ==> q[i] < |tcb|
      modifies `tcb, `wq
      ensures Cached() && Con() == Repri(old(Con()), obj, t, newpri, mtxmode)
    {
      RepriIdle(Con(), obj, t, newpri, mtxmode);
      ghost var c := Repri(Con(), obj, t, newpri, mtxmode);
      Raise(t, newpri);
      if tcb[t].stat.Waiting? && tcb[t].stat.why.On? {
        WobjChangePriority(tcb[t].stat.why.obj, t);
      }
      assert Con() == c;
    }

    /** A task in no ready queue gets another priority. */
    method Raise(t: nat, n: nat)
      requires Cached() && t < |tcb| && t !in Flat(readyq)
      modifies `tcb
      ensures Cached() && Con() == old(Con()).(tcb := old(tcb)[t := old(tcb)[t].(pri := n)])
    {
      QueuedReprio(Prios(tcb), readyq, primap, t, n);
      tcb := tcb[t := tcb[t].(pri := n)];
      assert Prios(tcb) == Prios(old(tcb))[t := n];
    }

    // ---------- releasing waiting tasks ----------

    /** Out of the wait queue and the time events, with result `er`. */
    method ReleaseWait(t: nat, er: ER)
      requires Stands(None, None) && IsWaiting(g, t)
      modifies this
      ensures Stands(None, None) && g == Unwait(old(g), t, er)
    {
      UnwaitReady(Con(), g, t, er);
      ghost var c, g1 := Unwaiting(Con(), t, er), Unwait(g, t, er);
      EndWait(t, er);
      g := g1;
      assert Con() == c;
    }

    method EndWait(t: nat, er: ER)
      requires Cached() && t < |tcb| && tcb[t].stat.Waiting? && tcb[t].pri < LEVELS && t !in Flat(readyq)
      requires tcb[t].winfo.Timer? && (t in tmev <==> tcb[t].winfo.on)
      modifies `wq, `tmev, `tcb, `readyq, `primap, `schedtsk
      ensures Cached() && Con() == Unwaiting(old(Con()), t, er)
    {
      Detach(t);
      Finish(t, er);
    }

    method Detach(t: nat)
      requires Cached() && t < |tcb| && tcb[t].stat.Waiting? && tcb[t].winfo.Timer? && (t in tmev <==> tcb[t].winfo.on)
      modifies `wq, `tmev
      ensures Cached() && Con() == OffTimer(OffQueue(old(Con()), t), t)
    {
      WaitDequeueWobj(t);
      WaitDequeueTmevtb(t);
    }

    method Finish(t: nat, er: ER)
      requires Cached() && t < |tcb| && tcb[t].stat.Waiting? && tcb[t].pri < LEVELS && t !in Flat(readyq)
      modifies `tcb, `readyq, `primap, `schedtsk
      ensures Cached() && Con() == NonWaiting(Answered(old(Con()), t, er), t)
    {
      SetResult(t, er);
      MakeNonWait(t);
    }

    /** `queue_delete_next` and the release of the task taken out. */
    method ReleaseHead(o: nat, er: ER)
      requires Stands(None, None) && o < |wq| && wq[o] != []
      modifies this
      ensures Stands(None, None) && g == Unwait(old(g), old(wq)[o][0], er)
      ensures |wq| == |old(wq)| && wq[o] == old(wq)[o][1..]
    {
      HeadReady(Con(), g, o, er);
      ghost var c, g1 := Unwaiting(Con(), wq[o][0], er), Unwait(g, wq[o][0], er);
      ServeHead(o, er);
      g := g1;
      assert Con() == c;
    }

    method ServeHead(o: nat, er: ER)
      requires Cached() && o < |wq| && wq[o] != [] && wq[o][0] < |tcb| && wq[o][0] !in Flat(readyq)
      requires tcb[wq[o][0]].stat.Waiting? && tcb[wq[o][0]].pri < LEVELS
      requires tcb[wq[o][0]].winfo.Timer? && (wq[o][0] in tmev <==> tcb[wq[o][0]].winfo.on)
      requires OffQueue(Con(), wq[o][0]) == Con().(wq := wq[o := wq[o][1..]])
      modifies `wq, `tmev, `tcb, `readyq, `primap, `schedtsk
      ensures Cached() && Con() == Unwaiting(old(Con()), old(wq)[o][0], er)
      ensures wq == old(wq)[o := old(wq)[o][1..]]
    {
      var w := TakeHead(o);
      SetResult(w, er);
      MakeNonWait(w);
    }

    /** `init_wait_queue` */
    method InitWaitQueue(o: nat)
      requires Stands(None, None) && o < |wq|
      modifies this
      ensures Stands(None, None) && g == UnwaitAll(old(g), old(wq)[o], EDlt)
    {
      while wq[o] != []
        invariant Stands(None, None) && o < |wq|
        invariant UnwaitAll(g, wq[o], EDlt) == UnwaitAll(old(g), old(wq)[o], EDlt)
        decreases |wq[o]|
      {
        ReleaseHead(o, EDlt);
      }
    }

    /** `wait_tmout` */
    method WaitTmout(t: nat)
      requires Cached() && t < |tcb| && tcb[t].stat.Waiting? && tcb[t].pri < LEVELS && t !in Flat(readyq)
      modifies `wq, `tcb, `readyq, `primap, `schedtsk
      ensures Cached() && Con() == NonWaiting(Answered(OffQueue(old(Con()), t), t, ETmout), t)
    {
      WaitDequeueWobj(t);
      SetResult(t, ETmout);
      MakeNonWait(t);
    }

    /** `wait_tmout_ok`, for a task in no wait queue. */
    method WaitTmoutOk(t: nat)
      requires Cached() && t < |tcb| && tcb[t].stat.Waiting? && tcb[t].pri < LEVELS && t !in Flat(readyq)
      modifies `tcb, `readyq, `primap, `schedtsk
      ensures Cached() && Con() == NonWaiting(Answered(old(Con()), t, Ok), t)
    {
      SetResult(t, Ok);
      MakeNonWait(t);
    }

    /** The time event of a waiting task is removed and called back. */
    method CallBack(t: nat)
      requires Cached() && t < |tcb| && tcb[t].stat.Waiting? && tcb[t].pri < LEVELS && t !in Flat(readyq)
      modifies `tmev, `wq, `tcb, `readyq, `primap, `schedtsk
      ensures Cached() && Con() == Unwaiting(old(Con()), t, if old(tcb)[t].stat.why == Delay then Ok else ETmout)
    {
      TimerFirst(Con(), t);
      tmev := tmev - {t};
      assert Con() == OffTimer(old(Con()), t);
      if tcb[t].stat.why == Delay {
        WaitTmoutOk(t);
      } else {
        WaitTmout(t);
      }
    }

    method ExpireWait(t: nat)
      requires Stands(None, None) && Timed(g, t)
      modifies this
      ensures Stands(None, None) && g == Unwait(old(g), t, if Tsk(old(g), t).stat.why == Delay then Ok else ETmout)
    {
      SameReason(Con(), g, t);
      ghost var er := if tcb[t].stat.why == Delay then Ok else ETmout;
      UnwaitReady(Con(), g, t, er);
      ghost var c, g1 := Unwaiting(Con(), t, er), Unwait(g, t, er);
      CallBack(t);
      g := g1;
      assert Con() == c;
    }

    // ---------- mutex.c ----------

    /** The links from the latest lock of task `t` run through its locks. */
    lemma OwnChain(t: nat)
      requires Models(Con(), g, None, None) && t < |tcb|
      ensures Chain(prevmtx, tcb[t].lastmtx, Tsk(g, t).locks)
      ensures forall o :: o in Tsk(g, t).locks ==> IsMtx(g.obj, o)
    {
      assert TaskAt(tcb, prevmtx, g, t, None);
      forall o | o in Tsk(g, t).locks ensures IsMtx(g.obj, o) { assert LockAt(g, t, o, None) && OwnAt(g, o, None); }
    }

    /** No base priority better than the ceiling of a mutex that the task has locked or waits for. */
    method MutexCheckCeilpri(t: nat, bpriority: nat) returns (ok: bool)
      requires Stands(None, None) && t < |tcb|
      ensures ok <==> !CeilingBars(g, t, bpriority)
    {
      OwnChain(t);
      TaskFacts(Con(), g, None, None, t);
      ghost var rest := Tsk(g, t).locks;
      var m := tcb[t].lastmtx;
      while m != None
        invariant Chain(prevmtx, m, rest) && forall o :: o in rest ==> o in Tsk(g, t).locks
        invariant forall o :: o in Tsk(g, t).locks ==> o in rest || !(IsCeil(obj, o) && bpriority < Ceiling(obj, o))
        decreases |rest|
      {
        if IsCeil(obj, m.value) && bpriority < obj[m.value].ceil {
          return false;
        }
        m := prevmtx[m.value];
        rest := rest[..|rest| - 1];
      }
      if tcb[t].stat.Waiting? && tcb[t].stat.why.On? {
        var o := tcb[t].stat.why.obj;
        if IsCeil(obj, o) && bpriority < obj[o].ceil {
          return false;
        }
      }
      return true;
    }

    method MutexScanCeilmtx(t: nat) returns (found: bool)
      requires Stands(None, None) && t < |tcb|
      ensures found <==> HoldsCeil(g, t)
    {
      OwnChain(t);
      ghost var rest := Tsk(g, t).locks;
      var m := tcb[t].lastmtx;
      while m != None
        invariant Chain(prevmtx, m, rest) && forall o :: o in rest ==> o in Tsk(g, t).locks
        invariant forall o :: o in Tsk(g, t).locks ==> o in rest || !IsCeil(obj, o)
        decreases |rest|
      {
        if IsCeil(obj, m.value) {
          return true;
        }
        m := prevmtx[m.value];
        rest := rest[..|rest| - 1];
      }
      return false;
    }

    /** The best of the base priority and the ceilings along the chain. */
    method MutexCalcPriority(t: nat, ghost locks: seq<nat>) returns (priority: nat)
      requires t < |tcb| && Chain(prevmtx, tcb[t].lastmtx, locks) && tcb[t].bpri < TNUM_TPRI
      ensures priority == EffPri(obj, tcb[t].bpri, locks)
    {
      ghost var rest := locks;
      priority := tcb[t].bpri;
      var m := tcb[t].lastmtx;
      EffPriIsMin(obj, tcb[t].bpri, locks);
      while m != None
        invariant Chain(prevmtx, m, rest) && priority <= tcb[t].bpri
        invariant Min(priority, EffPri(obj, tcb[t].bpri, rest)) == EffPri(obj, tcb[t].bpri, locks)
        decreases |rest|
      {
        if IsCeil(obj, m.value) && obj[m.value].ceil < priority {
          priority := obj[m.value].ceil;
        }
        m := prevmtx[m.value];
        rest := rest[..|rest| - 1];
      }
    }

    method MutexDropPriority(t: nat, m: nat, ghost locks: seq<nat>)
      requires Cached() && t < |tcb| && tcb[t].bpri < TNUM_TPRI && (tcb[t].stat.Runnable? <==> t in Flat(readyq))
      requires tcb[t].stat.Waiting? && tcb[t].stat.why.On? ==>
        tcb[t].stat.why.obj < |wq| && var q := wq[tcb[t].stat.why.obj]; forall i :: 0 <= i < |q| ==> q[i] < |tcb|
      requires Chain(prevmtx, tcb[t].lastmtx, locks)
      modifies `tcb, `readyq, `primap, `schedtsk, `wq
      ensures Cached() && Con() == Dropped(old(Con()), obj, t, m, EffPri(obj, old(tcb)[t].bpri, locks))
    {
      if IsCeil(obj, m) && obj[m].ceil == tcb[t].pri {
        var newpri := MutexCalcPriority(t, locks);
        EffPriIsMin(obj, tcb[t].bpri, locks);
        if newpri != tcb[t].pri {
          ChangePriority(t, newpri, true);
        }
      }
    }

    /** The mutex gets an owner and becomes the latest in its chain. */
    method MutexLink(t: nat, m: nat)
      requires Cached() && t < |tcb| && m < |loctsk| && m < |prevmtx|
      modifies `tcb, `loctsk, `prevmtx
      ensures Cached() && Con() == Linked(old(Con()), t, m)
    {
      loctsk := loctsk[m := Some(t)];
      prevmtx := prevmtx[m := tcb[t].lastmtx];
      SamePrios(tcb, t, tcb[t].(lastmtx := Some(m)));
      tcb := tcb[t := tcb[t].(lastmtx := Some(m))];
    }

    method MutexAcquire(t: nat, m: nat)
      requires Stands(None, None) && IsRunnable(g, t) && IsMtx(obj, m) && loctsk[m] == None
      requires IsCeil(obj, m) ==> Ceiling(obj, m) <= Tsk(g, t).bpri
      modifies this
      ensures Stands(None, None) && g == Acquire(old(g), t, m)
    {
      TaskFacts(Con(), g, None, None, t);
      AcquireStep(Con(), g, t, m);
      ghost var g1 := Acquire(g, t, m);
      MutexLink(t, m);
      if IsCeil(obj, m) && obj[m].ceil < tcb[t].pri {
        ChangePriority(t, obj[m].ceil, true);
      }
      ghost var c := Con();
      g := g1;
      assert Con() == c;
    }

    /** The mutex has no owner that knows of it: the first task waiting gets it, or nobody. */
    method MutexRelease(m: nat, ghost lim: Option<nat>)
      requires Stands(lim, Some(m)) && IsMtx(obj, m)
      modifies this
      ensures Stands(lim, None) && g == KernelSpec.Release(old(g), m)
    {
      if wq[m] == [] {
        ReleaseNoneStep(Con(), g, lim, m);
        ghost var c, g1 := Con().(loctsk := loctsk[m := None]), KernelSpec.Release(g, m);
        loctsk := loctsk[m := None];
        g := g1;
        assert Con() == c;
      } else {
        HandoverStep(Con(), g, lim, m);
        ghost var c, g1 := Handover(Con(), obj, wq[m][0], m), KernelSpec.Release(g, m);
        MutexHandOver(m);
        g := g1;
        assert Con() == c;
      }
    }

    /** The first task waiting becomes the owner and stops waiting. */
    method MutexHandOver(m: nat)
      requires Cached() && IsMtx(obj, m) && m < |wq| && m < |loctsk| && m < |prevmtx| && wq[m] != [] && wq[m][0] < |tcb|
      requires wq[m][0] !in Flat(readyq) && tcb[wq[m][0]].stat.Waiting? && tcb[wq[m][0]].pri < LEVELS
      requires tcb[wq[m][0]].winfo.Timer? && (wq[m][0] in tmev <==> tcb[wq[m][0]].winfo.on)
      requires OffQueue(Con(), wq[m][0]) == Con().(wq := wq[m := wq[m][1..]])
      modifies `wq, `tmev, `tcb, `loctsk, `prevmtx, `readyq, `primap, `schedtsk
      ensures Cached() && Con() == Handover(old(Con()), obj, old(wq)[m][0], m)
    {
      var t := TakeHead(m);
      Inherit(t, m);
      MakeNonWait(t);
    }

    /** `queue_delete_next`, and the time event of the task taken out. */
    method TakeHead(o: nat) returns (t: nat)
      requires o < |wq| && wq[o] != [] && wq[o][0] < |tcb|
      requires tcb[wq[o][0]].winfo.Timer? && (wq[o][0] in tmev <==> tcb[wq[o][0]].winfo.on)
      requires OffQueue(Con(), wq[o][0]) == Con().(wq := wq[o := wq[o][1..]])
      modifies `wq, `tmev
      ensures t == old(wq)[o][0] && Con() == OffTimer(OffQueue(old(Con()), t), t)
    {
      t := wq[o][0];
      wq := wq[o := wq[o][1..]];
      WaitDequeueTmevtb(t);
    }

    /** The result of the heir's wait, the links of the mutex and the ceiling. */
    method Inherit(t: nat, m: nat)
      requires Cached() && t < |tcb| && t !in Flat(readyq) && m < |loctsk| && m < |prevmtx| && IsMtx(obj, m)
      requires tcb[t].pri < TNUM_TPRI
      modifies `tcb, `loctsk, `prevmtx
      ensures Cached()
      ensures Con() == Bequeathed(old(Con()), obj, t, m)
    {
      ghost var c := Con();
      SetResult(t, Ok);
      MutexLink(t, m);
      InheritLinks(c, t, m);
      if IsCeil(obj, m) {
        if obj[m].ceil < tcb[t].pri {
          Raise(t, obj[m].ceil);
        }
      }
      assert tcb == old(tcb)[t := HeirBlock(old(tcb)[t], obj, m)];
    }

    /** The ended task gives up the latest of its locks. */
    method MutexReleaseLatest(t: nat)
      requires Stands(Some(t), None) && t < |tcb| && tcb[t].lastmtx.Some?
      modifies this
      ensures Stands(Some(t), None) && |tcb| == |old(tcb)|
      ensures var locks := Tsk(old(g), t).locks;
        && locks != [] && Tsk(g, t).locks == locks[..|locks| - 1]
        && g == KernelSpec.Release(SetTsk(old(g), t, Tsk(old(g), t).(locks := locks[..|locks| - 1])), locks[|locks| - 1])
    {
      ShedStep(Con(), g, t);
      ghost var locks := Tsk(g, t).locks;
      ghost var g1 := SetTsk(g, t, Tsk(g, t).(locks := locks[..|locks| - 1]));
      var m := tcb[t].lastmtx.value;
      SamePrios(tcb, t, tcb[t].(lastmtx := prevmtx[m]));
      tcb := tcb[t := tcb[t].(lastmtx := prevmtx[m])];
      ghost var c := Con();
      g := g1;
      assert Con() == c;
      ReleasedStays(g1, m, t);
      MutexRelease(m, Some(t));
    }

    /** `mutex_release_all` */
    method MutexReleaseAll(t: nat)
      requires Stands(Some(t), None) && t < |tcb|
      modifies this
      ensures Stands(Some(t), None) && t < |tcb| && g == ReleaseAll(old(g), t, Tsk(old(g), t).locks)
    {
      LimboChain(Con(), g, t);
      while tcb[t].lastmtx != None
        invariant Stands(Some(t), None) && t < |tcb|
        invariant tcb[t].lastmtx == None <==> Tsk(g, t).locks == []
        invariant ReleaseAll(g, t, Tsk(g, t).locks) == ReleaseAll(old(g), t, Tsk(old(g), t).locks)
        decreases |Tsk(g, t).locks|
      {
        MutexReleaseLatest(t);
        LimboChain(Con(), g, t);
      }
    }

    // ---------- task.c: the end and the start of tasks ----------

    /** `make_dormant` */
    method MakeDormant(t: nat)
      requires Cached() && t < |tcb| && t !in Flat(readyq)
      modifies `tcb
      ensures Cached() && Con() == old(Con()).(tcb := old(tcb)[t := DormantBlock(old(tcb)[t])])
    {
      QueuedReprio(Prios(tcb), readyq, primap, t, tcb[t].ipri);
      var x := tcb[t];
      tcb := tcb[t := x.(stat := Dormant, bpri := x.ipri, pri := x.ipri, wupque := false, raster := false, enater := true)];
      assert Prios(tcb) == Prios(old(tcb))[t := x.ipri];
    }

    method Activate(t: nat)
      requires Stands(None, None) && t < |tcb| && (tcb[t].stat.Dormant? || tcb[t].stat.Suspended?)
      modifies this
      ensures Stands(None, None) && g == Wake(old(g), t)
    {
      TaskFacts(Con(), g, None, None, t);
      WakeStep(Con(), g, None, None, t);
      ghost var c, g1 := Running(Con(), t), Wake(g, t);
      BecomeRunnable(t);
      g := g1;
      assert Con() == c;
    }

    /** The task leaves whatever queue it is in. */
    method TakeAway(t: nat)
      requires Stands(None, None) && t < |tcb| && (schedtsk == Some(t) ==> dspflg)
      modifies this
      ensures Stands(Some(t), None) && t < |tcb| && g == Place(old(g), t, Ended(Tsk(old(g), t)), false)
    {
      GoneReady(Con(), g, t);
      ghost var c, g1 := Gone(Con(), t), Place(g, t, Ended(Tsk(g, t)), false);
      LeaveQueues(t);
      g := g1;
      assert Con() == c;
    }

    method LeaveQueues(t: nat)
      requires Cached() && t < |tcb| && (schedtsk == Some(t) ==> dspflg) && (tcb[t].stat.Runnable? <==> t in Flat(readyq))
      requires tcb[t].stat.Waiting? ==> tcb[t].winfo.Timer? && (t in tmev <==> tcb[t].winfo.on)
      modifies `readyq, `primap, `schedtsk, `wq, `tmev
      ensures Cached() && Con() == Gone(old(Con()), t)
    {
      if tcb[t].stat.Runnable? {
        MakeNonRunnable(t);
      } else if tcb[t].stat.Waiting? {
        Detach(t);
      }
    }

    /** The control block says so, too. */
    method ComeToRest(t: nat)
      requires Stands(Some(t), None) && t < |tcb| && Tsk(g, t).locks == [] && Core(g, None, None)
      modifies `tcb
      ensures Stands(None, None) && tcb[t].stat.Dormant? && |tcb| == |old(tcb)|
    {
      DormantStep(Con(), g, t);
      LimboNowhere(g, t);
      MakeDormant(t);
    }

    /** `task_terminate` */
    method TaskTerminate(t: nat)
      requires Stands(None, None) && t < |tcb| && (schedtsk == Some(t) ==> dspflg)
      modifies this
      ensures Stands(None, None) && g == Terminate(old(g), t)
    {
      Strip(t);
      ComeToRest(t);
      Restart(t);
    }

    /** The task leaves its queues and gives up its locks. */
    method Strip(t: nat)
      requires Stands(None, None) && t < |tcb| && (schedtsk == Some(t) ==> dspflg)
      modifies this
      ensures Stands(Some(t), None) && t < |tcb| && Tsk(g, t).locks == [] && Core(g, None, None)
      ensures g == ReleaseAll(Place(old(g), t, Ended(Tsk(old(g), t)), false), t, Tsk(old(g), t).locks)
    {
      ghost var g0 := g;
      PlaceMoved(g, t, Ended(Tsk(g, t)), false);
      TakeAway(t);
      ReleaseAllCore(g, t, Tsk(g, t).locks);
      MutexReleaseAll(t);
    }

    /** A queued activation starts the task again. */
    method Restart(t: nat)
      requires Stands(None, None) && t < |tcb| && tcb[t].stat.Dormant?
      modifies this
      ensures Stands(None, None)
      ensures g == if Tsk(old(g), t).actque then Wake(SetTsk(old(g), t, Tsk(old(g), t).(actque := false)), t) else old(g)
    {
      TaskFacts(Con(), g, None, None, t);
      if tcb[t].actque {
        SetFlags(t, tcb[t].(actque := false));
        Activate(t);
      }
    }

    /** Flags change, the place of the task does not. */
    method SetFlags(t: nat, y: TCB)
      requires Stands(None, None) && t < |tcb| && TaskOk(ToTask(y, Tsk(g, t).locks))
      requires y == tcb[t].(stat := y.stat, actque := y.actque, wupque := y.wupque, raster := y.raster, enater := y.enater)
      requires y.stat == tcb[t].stat || (y.stat.Waiting? && tcb[t].stat.Waiting? && y.stat.why == tcb[t].stat.why)
      modifies this
      ensures Stands(None, None) && tcb == old(tcb)[t := y] && g == SetTsk(old(g), t, ToTask(y, Tsk(old(g), t).locks))
      ensures runtsk == old(runtsk) && intctx == old(intctx)
    {
      FlagCore(Con(), g, t, y);
      FlagStep(Con(), g, t, y);
      ghost var g1 := SetTsk(g, t, ToTask(y, Tsk(g, t).locks));
      SamePrios(tcb, t, y);
      tcb := tcb[t := y];
      ghost var c := Con();
      g := g1;
      assert Con() == c;
    }

    // ---------- service calls ----------

    /** `dispatch`: the task to run takes over. */
    method Dispatch()
      requires Stands(None, None)
      modifies this
      ensures Stands(None, None) && g == KernelSpec.Dispatch(old(g))
    {
      if runtsk != schedtsk {
        DispatchStep(Con(), g, schedtsk);
        ghost var c, g1 := Con().(runtsk := schedtsk), KernelSpec.Dispatch(g);
        runtsk := schedtsk;
        g := g1;
        assert Con() == c;
      }
    }

    /** At the end of a call that may have changed the task to run. */
    method Resched()
      requires Stands(None, None)
      modifies this
      ensures Stands(None, None) && g == KernelSpec.Resched(old(g))
    {
      if !intctx {
        Dispatch();
      }
    }

    method ActTsk(t: nat) returns (er: ER)
      requires Valid()
      modifies this
      ensures Valid() && (g, er) == KernelSpec.ActTsk(old(g), t)
    {
      ActTskInv(g, t);
      if t >= |tcb| {
        return EId;
      }
      TaskFacts(Con(), g, None, None, t);
      if tcb[t].stat.Dormant? {
        Activate(t);
        Resched();
        er := Ok;
      } else if tcb[t].noactque || tcb[t].actque {
        er := EQovr;
      } else {
        SetFlags(t, tcb[t].(actque := true));
        er := Ok;
      }
    }

    /** `act_tsk` aside, a call is refused in an interrupt handler or needs dispatching to be possible;
        the calling task is the running one. */
    lemma Caller()
      requires Valid() && runtsk.Some?
      ensures var t := runtsk.value;
        && t < |tcb| && Self(g) == t && tcb[t].stat.Runnable? && t in Flat(readyq)
        && ToTask(tcb[t], Tsk(g, t).locks) == Tsk(g, t)
    {
      TaskFacts(Con(), g, None, None, runtsk.value);
    }

    method SlpTsk(tmo: nat) returns (er: ER)
      requires Valid() && (intctx || runtsk.Some?)
      modifies this
      ensures Valid() && (g, er) == KernelSpec.SlpTsk(old(g), tmo)
    {
      SlpTskInv(g, tmo);
      if intctx || !dspflg {
        return ECtx;
      }
      if tmo > TMAX_RELTIM && tmo != TMO_FEVR {
        return EPar;
      }
      Caller();
      var t := runtsk.value;
      if tcb[t].raster {
        er := ERaster;
      } else if tcb[t].wupque {
        SetFlags(t, tcb[t].(wupque := false));
        er := Ok;
      } else if tmo == TMO_POL {
        er := ETmout;
      } else {
        Sleep(t, KernelSpec.Reason.Sleep, tmo);
        Dispatch();
        er := Blocked;
      }
    }

    /** The running task waits, in no queue. */
    method Sleep(t: nat, why: Reason, tmo: nat)
      requires Stands(None, None) && IsRunnable(g, t) && !Tsk(g, t).raster && dspflg && !why.On? && (why == Delay ==> tmo != TMO_FEVR)
      modifies this
      ensures Stands(None, None) && g == Block(old(g), t, why, tmo != TMO_FEVR)
    {
      TaskFacts(Con(), g, None, None, t);
      SleepStep(Con(), g, t, why, tmo != TMO_FEVR);
      ghost var c, g1 := Asleep(Con(), t, why, tmo != TMO_FEVR), Block(g, t, why, tmo != TMO_FEVR);
      MakeWait(t, why, tmo);
      g := g1;
      assert Con() == c;
    }

    /** `wobj_make_wait`, `wobj_make_wait_tmout` */
    method WobjMakeWait(t: nat, o: nat, tmo: nat)
      requires Cached() && t < |tcb| && t in Flat(readyq) && dspflg
      requires o < |wq| && forall i :: 0 <= i < |wq[o]| ==> wq[o][i] < |tcb|
      modifies `tcb, `readyq, `primap, `schedtsk, `tmev, `wq
      ensures Cached() && Con() == Enqueued(Asleep(old(Con()), t, On(o), tmo != TMO_FEVR), t, o, ByPriority(obj, o))
    {
      MakeWait(t, On(o), tmo);
      WobjQueueInsert(t, o);
    }

    /** The running task waits in the queue of an object. */
    method BlockOn(t: nat, o: nat, tmo: nat)
      requires Stands(None, None) && IsRunnable(g, t) && !Tsk(g, t).raster && dspflg && MayWait(g, t, o)
      requires IsCeil(g.obj, o) ==> Ceiling(g.obj, o) <= Tsk(g, t).bpri
      modifies this
      ensures Stands(None, None) && g == Block(old(g), t, On(o), tmo != TMO_FEVR)
    {
      BlockReady(Con(), g, t, o, tmo != TMO_FEVR);
      ghost var c, g1 := Enqueued(Asleep(Con(), t, On(o), tmo != TMO_FEVR), t, o, ByPriority(obj, o)), Block(g, t, On(o), tmo != TMO_FEVR);
      WobjMakeWait(t, o, tmo);
      g := g1;
      assert Con() == c;
    }

    method DlyTsk(dlytim: nat) returns (er: ER)
      requires Valid() && (intctx || runtsk.Some?)
      modifies this
      ensures Valid() && (g, er) == KernelSpec.DlyTsk(old(g), dlytim)
    {
      DlyTskInv(g, dlytim);
      if intctx || !dspflg {
        return ECtx;
      }
      if dlytim > TMAX_RELTIM {
        return EPar;
      }
      Caller();
      var t := runtsk.value;
      if tcb[t].raster {
        er := ERaster;
      } else {
        Sleep(t, Delay, dlytim);
        Dispatch();
        er := Blocked;
      }
    }

    method WupTsk(t: nat) returns (er: ER)
      requires Valid()
      modifies this
      ensures Valid() && (g, er) == KernelSpec.WupTsk(old(g), t)
    {
      WupTskInv(g, t);
      if t >= |tcb| {
        return EId;
      }
      TaskFacts(Con(), g, None, None, t);
      if tcb[t].stat.Dormant? {
        er := EObj;
      } else if tcb[t].stat.Waiting? && tcb[t].stat.why == KernelSpec.Reason.Sleep {
        ReleaseWait(t, Ok);
        Resched();
        er := Ok;
      } else if !tcb[t].wupque {
        SetFlags(t, tcb[t].(wupque := true));
        er := Ok;
      } else {
        er := EQovr;
      }
    }

    method RelWai(t: nat) returns (er: ER)
      requires Valid()
      modifies this
      ensures Valid() && (g, er) == KernelSpec.RelWai(old(g), t)
    {
      if t >= |tcb| {
        return EId;
      }
      TaskFacts(Con(), g, None, None, t);
      if !tcb[t].stat.Waiting? {
        er := EObj;
      } else {
        UnwaitInv(g, t, ERlwai);
        ReleaseWait(t, ERlwai);
        Resched();
        er := Ok;
      }
    }

    method SusTsk(t: nat) returns (er: ER)
      requires Valid()
      modifies this
      ensures Valid() && (g, er) == KernelSpec.SusTsk(old(g), t)
    {
      SusTskInv(g, t);
      if intctx {
        return ECtx;
      }
      if t >= |tcb| {
        return EId;
      }
      TaskFacts(Con(), g, None, None, t);
      if runtsk == Some(t) && !dspflg {
        er := ECtx;
      } else if tcb[t].stat.Dormant? {
        er := EObj;
      } else if tcb[t].raster {
        er := ERaster;
      } else if tcb[t].stat.Runnable? {
        Suspend(t);
        Dispatch();
        er := Ok;
      } else if tcb[t].stat.Suspended? || tcb[t].stat.sus {
        er := EQovr;
      } else {
        SetFlags(t, tcb[t].(stat := Waiting(tcb[t].stat.why, true)));
        er := Ok;
      }
    }

    method Suspend(t: nat)
      requires Stands(None, None) && IsRunnable(g, t) && !Tsk(g, t).raster && (schedtsk == Some(t) ==> dspflg)
      modifies this
      ensures Stands(None, None) && g == Place(old(g), t, Tsk(old(g), t).(stat := Suspended), false)
    {
      TaskFacts(Con(), g, None, None, t);
      SuspendCore(g, t);
      SuspendStep(Con(), g, t);
      ghost var c, g1 := Stopped(Con(), t, Suspended), Place(g, t, Tsk(g, t).(stat := Suspended), false);
      Stop(t, Suspended);
      g := g1;
      assert Con() == c;
    }

    method RsmTsk(t: nat) returns (er: ER)
      requires Valid()
      modifies this
      ensures Valid() && (g, er) == KernelSpec.RsmTsk(old(g), t)
    {
      RsmTskInv(g, t);
      if intctx {
        return ECtx;
      }
      if t >= |tcb| {
        return EId;
      }
      TaskFacts(Con(), g, None, None, t);
      if !(tcb[t].stat.Suspended? || (tcb[t].stat.Waiting? && tcb[t].stat.sus)) {
        er := EObj;
      } else {
        if !tcb[t].stat.Waiting? {
          Activate(t);
          Dispatch();
        } else {
          SetFlags(t, tcb[t].(stat := Waiting(tcb[t].stat.why, false)));
        }
        er := Ok;
      }
    }

    // ---------- the end of tasks ----------

    method ExtTsk() returns (er: ER)
      requires Valid() && (intctx || runtsk.Some?)
      modifies this
      ensures Valid() && (g, er) == KernelSpec.ExtTsk(old(g))
    {
      ExtTskInv(g);
      if intctx {
        return ECtx;
      }
      Caller();
      var t := runtsk.value;
      if !dspflg {
        OpenDispatch();
      }
      TaskTerminate(t);
      Dispatch();
      er := Ok;
    }

    /** Dispatching is enabled and the interrupt mask opened. */
    method OpenDispatch()
      requires Stands(None, None) && runtsk.Some? && IsRunnable(g, runtsk.value)
      modifies this
      ensures Stands(None, None) && g == old(g).(enadsp := true, ipmopen := true)
      ensures dspflg && runtsk == old(runtsk) && intctx == old(intctx)
    {
      TaskFacts(Con(), g, None, None, runtsk.value);
      FlagsStep(Con(), g, true, true, intctx);
      ghost var c, g1 := Con().(enadsp := true, ipmopen := true, dspflg := true), g.(enadsp := true, ipmopen := true);
      OpenFlags();
      g := g1;
      assert Con() == c;
    }

    method OpenFlags()
      requires Cached() && Flat(readyq) != []
      modifies `enadsp, `ipmopen, `dspflg, `schedtsk
      ensures Cached() && Con() == old(Con()).(enadsp := true, ipmopen := true, dspflg := true)
    {
      enadsp := true;
      ipmopen := true;
      SetDspflg();
    }

    method RasTer(t: nat) returns (er: ER)
      requires Valid()
      modifies this
      ensures Valid() && (g, er) == KernelSpec.RasTer(old(g), t)
    {
      RasTerInv(g, t);
      if intctx {
        return ECtx;
      }
      if t >= |tcb| {
        return EId;
      }
      if runtsk == Some(t) {
        return EIluse;
      }
      TaskFacts(Con(), g, None, None, t);
      if tcb[t].stat.Dormant? {
        er := EObj;
      } else if tcb[t].enater {
        TaskTerminate(t);
        Dispatch();
        er := Ok;
      } else {
        if tcb[t].stat.Runnable? {
          SetFlags(t, tcb[t].(raster := true));
        } else {
          Recall(t);
          Dispatch();
        }
        er := Ok;
      }
    }

    /** A task that is to end is made to run: its wait or suspension is over. */
    method Recall(t: nat)
      requires Stands(None, None) && t < |tcb| && !tcb[t].stat.Runnable? && !tcb[t].stat.Dormant?
      modifies this
      ensures Stands(None, None) && g == Place(old(g), t, RecalledTask(Tsk(old(g), t)), false)
    {
      RecallReady(Con(), g, t);
      ghost var c, g1 := Recalled(Con(), t), Place(g, t, RecalledTask(Tsk(g, t)), false);
      MakeRecalled(t);
      g := g1;
      assert Con() == c;
    }

    method MakeRecalled(t: nat)
      requires Cached() && t < |tcb| && tcb[t].pri < LEVELS && t !in Flat(readyq)
      requires tcb[t].stat.Waiting? ==> tcb[t].winfo.Timer? && (t in tmev <==> tcb[t].winfo.on)
      modifies `wq, `tmev, `tcb, `readyq, `primap, `schedtsk
      ensures Cached() && Con() == Recalled(old(Con()), t)
    {
      SetRaster(t);
      if tcb[t].stat.Waiting? {
        CutWait(t);
      }
      BecomeRunnable(t);
    }

    method CutWait(t: nat)
      requires Cached() && t < |tcb| && tcb[t].winfo.Timer? && (t in tmev <==> tcb[t].winfo.on)
      modifies `wq, `tmev, `tcb
      ensures Cached() && Con() == Answered(OffTimer(OffQueue(old(Con()), t), t), t, ERaster)
    {
      WaitDequeueWobj(t);
      WaitDequeueTmevtb(t);
      SetResult(t, ERaster);
    }

    method SetRaster(t: nat)
      requires Cached() && t < |tcb|
      modifies `tcb
      ensures Cached() && Con() == old(Con()).(tcb := old(tcb)[t := old(tcb)[t].(raster := true)])
    {
      SamePrios(tcb, t, tcb[t].(raster := true));
      tcb := tcb[t := tcb[t].(raster := true)];
    }

    method DisTer() returns (er: ER)
      requires Valid() && (intctx || runtsk.Some?)
      modifies this
      ensures Valid() && (g, er) == KernelSpec.DisTer(old(g))
    {
      DisTerInv(g);
      if intctx {
        return ECtx;
      }
      Caller();
      SetFlags(runtsk.value, tcb[runtsk.value].(enater := false));
      er := Ok;
    }

    method EnaTer() returns (er: ER)
      requires Valid() && (intctx || runtsk.Some?)
      modifies this
      ensures Valid() && (g, er) == KernelSpec.EnaTer(old(g))
    {
      EnaTerInv(g);
      if intctx {
        return ECtx;
      }
      Caller();
      var t := runtsk.value;
      if tcb[t].raster && dspflg {
        TaskTerminate(t);
        Dispatch();
      } else {
        SetFlags(t, tcb[t].(enater := true));
      }
      er := Ok;
    }

    method TerTsk(t: nat) returns (er: ER)
      requires Valid()
      modifies this
      ensures Valid() && (g, er) == KernelSpec.TerTsk(old(g), t)
    {
      TerTskInv(g, t);
      if intctx {
        return ECtx;
      }
      if t >= |tcb| {
        return EId;
      }
      if runtsk == Some(t) {
        return EIluse;
      }
      TaskFacts(Con(), g, None, None, t);
      if tcb[t].stat.Dormant? {
        er := EObj;
      } else {
        TaskTerminate(t);
        Dispatch();
        er := Ok;
      }
    }

    // ---------- priorities and dispatching ----------

    method ChgPri(t: nat, tskpri: nat) returns (er: ER)
      requires Valid()
      modifies this
      ensures Valid() && (g, er) == KernelSpec.ChgPri(old(g), t, tskpri)
    {
      ChgPriInv(g, t, tskpri);
      if intctx {
        return ECtx;
      }
      if t >= |tcb| {
        return EId;
      }
      if tskpri > TNUM_TPRI {
        return EPar;
      }
      TaskFacts(Con(), g, None, None, t);
      var newbpri := if tskpri == 0 then tcb[t].ipri else tskpri - 1;
      if tcb[t].stat.Dormant? {
        return EObj;
      }
      var fits := MutexCheckCeilpri(t, newbpri);
      if !fits {
        er := EIluse;
      } else {
        var held := MutexScanCeilmtx(t);
        if held {
          KeepPriority(t, newbpri);
        } else {
          NewPriority(t, newbpri);
          Dispatch();
        }
        er := Ok;
      }
    }

    /** A new base priority while a ceiling mutex is locked. */
    method KeepPriority(t: nat, p: nat)
      requires Stands(None, None) && t < |tcb| && p < TNUM_TPRI && !tcb[t].stat.Dormant? && !CeilingBars(g, t, p) && HoldsCeil(g, t)
      modifies this
      ensures Stands(None, None) && g == SetTsk(old(g), t, Tsk(old(g), t).(bpri := p))
    {
      TaskFacts(Con(), g, None, None, t);
      NewBaseHeld(Con(), g, t, p);
      ghost var g1 := SetTsk(g, t, Tsk(g, t).(bpri := p));
      SamePrios(tcb, t, tcb[t].(bpri := p));
      tcb := tcb[t := tcb[t].(bpri := p)];
      ghost var c := Con();
      g := g1;
      assert Con() == c;
    }

    method NewPriority(t: nat, p: nat)
      requires Stands(None, None) && t < |tcb| && p < TNUM_TPRI && !tcb[t].stat.Dormant? && !CeilingBars(g, t, p) && !HoldsCeil(g, t)
      modifies this
      ensures Stands(None, None) && g == Replace(old(g), t, Tsk(old(g), t).(bpri := p), false)
    {
      NewPriorityStep(Con(), g, t, p);
      ghost var g1 := Replace(g, t, Tsk(g, t).(bpri := p), false);
      ghost var c := Repri(Con().(tcb := tcb[t := tcb[t].(bpri := p)]), obj, t, p, false);
      ChangeBase(t, p);
      g := g1;
      assert Con() == c;
    }

    method ChangeBase(t: nat, p: nat)
      requires Cached() && t < |tcb| && p < LEVELS && (tcb[t].stat.Runnable? <==> t in Flat(readyq))
      requires tcb[t].stat.Waiting? && tcb[t].stat.why.On? ==>
        tcb[t].stat.why.obj < |wq| && var q := wq[tcb[t].stat.why.obj]; forall i :: 0 <= i < |q| ==> q[i] < |tcb|
      modifies `tcb, `readyq, `primap, `schedtsk, `wq
      ensures Cached()
      ensures Con() == Repri(old(Con()).(tcb := old(tcb)[t := old(tcb)[t].(bpri := p)]), obj, t, p, false)
    {
      SetBase(t, p);
      ChangePriority(t, p, false);
    }

    method SetBase(t: nat, p: nat)
      requires Cached() && t < |tcb|
      modifies `tcb
      ensures Cached() && Con() == old(Con()).(tcb := old(tcb)[t := old(tcb)[t].(bpri := p)])
    {
      SamePrios(tcb, t, tcb[t].(bpri := p));
      tcb := tcb[t := tcb[t].(bpri := p)];
    }

    method RotRdq(tskpri: nat) returns (er: ER)
      requires Valid() && (intctx || runtsk.Some?)
      modifies this
      ensures Valid() && (g, er) == KernelSpec.RotRdq(old(g), tskpri)
    {
      RotRdqInv(g, tskpri);
      var pri: nat;
      if tskpri == 0 && !intctx {
        Caller();
        pri := tcb[runtsk.value].bpri;
        assert PriOk(g, runtsk.value);
      } else {
        if tskpri == 0 || tskpri > TNUM_TPRI {
          return EPar;
        }
        pri := tskpri - 1;
      }
      assert pri == if tskpri == 0 then Tsk(g, Self(g)).bpri else tskpri - 1;
      assert !(tskpri > TNUM_TPRI || (tskpri == 0 && g.ctx));
      Rotate(pri);
      Resched();
      er := Ok;
    }

    method Rotate(p: nat)
      requires Stands(None, None) && p < LEVELS
      modifies this
      ensures Stands(None, None) && g == KernelSpec.Rotate(old(g), p)
    {
      RotateStep(Con(), g, readyq, p);
      ghost var c := Con().(ready := Rotated(Prios(tcb), readyq, p));
      ghost var g1 := KernelSpec.Rotate(g, p);
      RotateReadyQueue(p);
      assert Con() == c;
      g := g1;
      assert Con() == c;
    }

    method DisDsp() returns (er: ER)
      requires Valid() && (intctx || runtsk.Some?)
      modifies this
      ensures Valid() && (g, er) == KernelSpec.DisDsp(old(g))
    {
      DisDspInv(g);
      if intctx {
        return ECtx;
      }
      SetClosed(false, ipmopen);
      er := Ok;
    }

    /** Dispatching is held off: the task to run freezes at the running task. */
    method SetClosed(enable: bool, open: bool)
      requires Stands(None, None) && !(enable && open) && schedtsk == runtsk
      modifies this
      ensures Stands(None, None) && g == old(g).(enadsp := enable, ipmopen := open)
    {
      FlagsStep(Con(), g, enable, open, intctx);
      ghost var c, g1 := Con().(enadsp := enable, ipmopen := open, dspflg := false), g.(enadsp := enable, ipmopen := open);
      enadsp := enable;
      ipmopen := open;
      dspflg := false;
      g := g1;
      assert Con() == c;
    }

    /** Dispatching has become possible: a pending termination is carried out, or the best task runs. */
    method Opened()
      requires Stands(None, None) && dspflg && runtsk.Some? && IsRunnable(g, runtsk.value)
      modifies this
      ensures Stands(None, None) && g == KernelSpec.Opened(old(g))
    {
      TaskFacts(Con(), g, None, None, runtsk.value);
      var t := runtsk.value;
      if tcb[t].raster && tcb[t].enater {
        TaskTerminate(t);
        Dispatch();
      } else {
        Dispatch();
      }
    }

    method EnaDsp() returns (er: ER)
      requires Valid() && (intctx || runtsk.Some?)
      modifies this
      ensures Valid() && (g, er) == KernelSpec.EnaDsp(old(g))
    {
      EnaDspInv(g);
      if intctx {
        return ECtx;
      }
      Caller();
      if ipmopen {
        OpenDispatch();
        Opened();
      } else {
        SetClosed(true, false);
      }
      er := Ok;
    }

    method ChgIpm(open: bool) returns (er: ER)
      requires Valid() && (intctx || runtsk.Some?)
      modifies this
      ensures Valid() && (g, er) == KernelSpec.ChgIpm(old(g), open)
    {
      ChgIpmInv(g, open);
      if intctx {
        return ECtx;
      }
      Caller();
      if open && enadsp {
        OpenDispatch();
        Opened();
      } else {
        SetClosed(enadsp, open);
      }
      er := Ok;
    }

    // ---------- mutexes ----------

    /** `loc_mtx` is the case of `TMO_FEVR`. */
    method LocMtx(m: nat, tmo: nat) returns (er: ER)
      requires Valid() && (intctx || runtsk.Some?)
      modifies this
      ensures Valid() && (g, er) == KernelSpec.LocMtx(old(g), m, tmo)
    {
      LocMtxInv(g, m, tmo);
      if intctx || !dspflg {
        return ECtx;
      }
      if !IsMtx(obj, m) {
        return EId;
      }
      if tmo > TMAX_RELTIM && tmo != TMO_FEVR {
        return EPar;
      }
      Caller();
      var t := runtsk.value;
      if tcb[t].raster {
        er := ERaster;
      } else if IsCeil(obj, m) && tcb[t].bpri < obj[m].ceil {
        er := EIluse;
      } else if loctsk[m] == None {
        NoDispatch(t, m);
        MutexAcquire(t, m);
        er := Ok;
      } else if loctsk[m] == runtsk {
        er := EObj;
      } else if tmo == TMO_POL {
        er := ETmout;
      } else {
        BlockOn(t, m, tmo);
        Dispatch();
        er := Blocked;
      }
    }

    /** The task to run is still the caller after it has locked a mutex. */
    lemma NoDispatch(t: nat, m: nat)
      requires Valid() && !intctx && runtsk == Some(t) && IsMtx(obj, m) && Own(g, m) == None
      ensures Sched(Acquire(g, t, m)) == runtsk
    {
      AcquireKeepsSched(g, t, m);
    }

    method PlocMtx(m: nat) returns (er: ER)
      requires Valid() && (intctx || runtsk.Some?)
      modifies this
      ensures Valid() && (g, er) == KernelSpec.PlocMtx(old(g), m)
    {
      PlocMtxInv(g, m);
      if intctx {
        return ECtx;
      }
      if !IsMtx(obj, m) {
        return EId;
      }
      Caller();
      var t := runtsk.value;
      if IsCeil(obj, m) && tcb[t].bpri < obj[m].ceil {
        er := EIluse;
      } else if loctsk[m] == None {
        MutexAcquire(t, m);
        er := Ok;
      } else if loctsk[m] == runtsk {
        er := EObj;
      } else {
        er := ETmout;
      }
    }

    method UnlMtx(m: nat) returns (er: ER)
      requires Valid() && (intctx || runtsk.Some?)
      modifies this
      ensures Valid() && (g, er) == KernelSpec.UnlMtx(old(g), m)
    {
      UnlMtxInv(g, m);
      if intctx {
        return ECtx;
      }
      if !IsMtx(obj, m) {
        return EId;
      }
      Caller();
      var t := runtsk.value;
      UnlinkLast(Con(), g, t, m);
      if tcb[t].lastmtx != Some(m) {
        er := EObj;
      } else {
        DropLast(t, m);
        MutexRelease(m, None);
        Dispatch();
        er := Ok;
      }
    }

    /** The latest lock leaves the chain, and the priority follows. */
    method DropLast(t: nat, m: nat)
      requires Stands(None, None) && t < |tcb| && tcb[t].lastmtx == Some(m)
      modifies this
      ensures Stands(None, Some(m)) && g == Relock(old(g), t, Remove(Tsk(old(g), t).locks, m))
    {
      DropLastStep(Con(), g, t, m);
      ghost var locks := Remove(Tsk(g, t).locks, m);
      ghost var c, g1 := Dropped(Popped(Con(), t), obj, t, m, EffPri(obj, tcb[t].bpri, locks)), Relock(g, t, locks);
      PopLock(t);
      MutexDropPriority(t, m, locks);
      g := g1;
      assert Con() == c;
    }

    method PopLock(t: nat)
      requires Cached() && t < |tcb| && tcb[t].lastmtx.Some? && tcb[t].lastmtx.value < |prevmtx|
      modifies `tcb
      ensures Cached() && Con() == Popped(old(Con()), t)
    {
      SamePrios(tcb, t, tcb[t].(lastmtx := prevmtx[tcb[t].lastmtx.value]));
      tcb := tcb[t := tcb[t].(lastmtx := prevmtx[tcb[t].lastmtx.value])];
    }

    /** Walks down the chain of task `h` with a pointer to a link, `None` for the one in the task's control
        block, and bends the link that leads to mutex `m`. */
    method MutexUnlink(h: nat, m: nat, ghost locks: seq<nat>) returns (ghost k: nat)
      requires Cached() && h < |tcb| && Chain(prevmtx, tcb[h].lastmtx, locks) && NoDup(locks) && m in locks
      modifies `tcb, `prevmtx
      ensures Cached() && |prevmtx| == |old(prevmtx)| && |tcb| == |old(tcb)| && k in locks && k < |prevmtx|
      ensures tcb == old(tcb)[h := old(tcb)[h].(lastmtx := tcb[h].lastmtx)]
      ensures prevmtx == old(prevmtx)[k := prevmtx[k]]
      ensures Chain(prevmtx, tcb[h].lastmtx, Remove(locks, m))
    {
      var at: Option<nat> := None;
      var link := tcb[h].lastmtx;
      ghost var j := |locks|;
      while link != Some(m)
        modifies {}
        invariant 0 <= j <= |locks| && (at == None <==> j == |locks|) && (at.Some? ==> at.value == locks[j])
        invariant link == if j == 0 then None else Some(locks[j - 1])
        invariant m in locks[..j]
        decreases j
      {
        j := j - 1;
        ChainAt(prevmtx, tcb[h].lastmtx, locks, j);
        assert locks[..j + 1] == locks[..j] + [locks[j]];
        at := link;
        link := prevmtx[at.value];
      }
      j := j - 1;
      k := locks[if j + 1 < |locks| then j + 1 else j];
      BendLink(h, at, locks, j);
    }

    /** The link `at` is set past the mutex it leads to, `locks[j]`. */
    method BendLink(h: nat, at: Option<nat>, ghost locks: seq<nat>, ghost j: nat)
      requires Cached() && h < |tcb| && Chain(prevmtx, tcb[h].lastmtx, locks) && NoDup(locks) && j < |locks|
      requires at == if j + 1 < |locks| then Some(locks[j + 1]) else None
      modifies `tcb, `prevmtx
      ensures Cached() && |prevmtx| == |old(prevmtx)| && |tcb| == |old(tcb)|
      ensures tcb == old(tcb)[h := old(tcb)[h].(lastmtx := tcb[h].lastmtx)]
      ensures var k := locks[if j + 1 < |locks| then j + 1 else j]; k < |prevmtx| && prevmtx == old(prevmtx)[k := prevmtx[k]]
      ensures Chain(prevmtx, tcb[h].lastmtx, Remove(locks, locks[j]))
    {
      ChainCut(prevmtx, tcb[h].lastmtx, locks, j);
      if at == None {
        var m := tcb[h].lastmtx.value;
        SamePrios(tcb, h, tcb[h].(lastmtx := prevmtx[m]));
        tcb := tcb[h := tcb[h].(lastmtx := prevmtx[m])];
      } else {
        var m := prevmtx[at.value].value;
        prevmtx := prevmtx[at.value := prevmtx[m]];
      }
    }

    method IniMtx(m: nat) returns (er: ER)
      requires Valid()
      modifies this
      ensures Valid() && (g, er) == KernelSpec.IniMtx(old(g), m)
    {
      IniMtxInv(g, m);
      if intctx {
        return ECtx;
      }
      if !IsMtx(obj, m) {
        return EId;
      }
      UnwaitAllCore(g, m, Que(g, m), EDlt);
      InitWaitQueue(m);
      if loctsk[m] != None {
        Disown(loctsk[m].value, m);
      }
      Dispatch();
      er := Ok;
    }

    /** A mutex without waiters is taken from its owner. */
    method Disown(h: nat, m: nat)
      requires Stands(None, None) && m < |loctsk| && loctsk[m] == Some(h) && Que(g, m) == []
      modifies this
      ensures Stands(None, None)
      ensures g == SetOwn(Relock(old(g), h, Remove(Tsk(old(g), h).locks, m)), m, None)
    {
      DisownFacts(Con(), g, h, m);
      ghost var c0, g0, locks := Con(), g, Tsk(g, h).locks;
      ghost var k := CutOwner(h, m, locks);
      DisownedStep(c0, g0, h, m, tcb[h].lastmtx, k, prevmtx[k]);
      ghost var c := Dropped(Con(), obj, h, m, EffPri(obj, tcb[h].bpri, Remove(locks, m)));
      MutexDropPriority(h, m, Remove(locks, m));
      g := SetOwn(Relock(g0, h, Remove(locks, m)), m, None);
      assert Con() == c;
    }

    method CutOwner(h: nat, m: nat, ghost locks: seq<nat>) returns (ghost k: nat)
      requires Cached() && h < |tcb| && m < |loctsk| && Chain(prevmtx, tcb[h].lastmtx, locks) && NoDup(locks) && m in locks
      modifies `loctsk, `tcb, `prevmtx
      ensures Cached() && k in locks && k < |prevmtx| && |prevmtx| == |old(prevmtx)| && h < |tcb|
      ensures Con() == Disowned(old(Con()), h, m, tcb[h].lastmtx, k, prevmtx[k])
      ensures Chain(prevmtx, tcb[h].lastmtx, Remove(locks, m))
    {
      loctsk := loctsk[m := None];
      ghost var c := Con();
      assert c == old(Con()).(loctsk := loctsk);
      k := MutexUnlink(h, m, locks);
    }

    // ---------- semaphores ----------

    /** `wai_sem` is the case of `TMO_FEVR`. */
    method WaiSem(o: nat, tmo: nat) returns (er: ER)
      requires Valid() && (intctx || runtsk.Some?)
      modifies this
      ensures Valid() && (g, er) == KernelSpec.WaiSem(old(g), o, tmo)
    {
      WaiSemInv(g, o, tmo);
      if intctx || !dspflg {
        return ECtx;
      }
      if !IsSem(obj, o) {
        return EId;
      }
      if tmo > TMAX_RELTIM && tmo != TMO_FEVR {
        return EPar;
      }
      Caller();
      var t := runtsk.value;
      if tcb[t].raster {
        er := ERaster;
      } else if semcnt[o] >= 1 {
        NoWaiters(g, o);
        SetSemcnt(o, semcnt[o] - 1);
        er := Ok;
      } else if tmo == TMO_POL {
        er := ETmout;
      } else {
        BlockOn(t, o, tmo);
        Dispatch();
        er := Blocked;
      }
    }

    method SetSemcnt(o: nat, n: nat)
      requires Stands(None, None) && IsSem(obj, o) && n <= obj[o].max && Que(g, o) == []
      modifies this
      ensures Stands(None, None) && g == SetCnt(old(g), o, n)
    {
      CountCore(g, o, n);
      CountStep(Con(), g, o, n);
      ghost var g1 := SetCnt(g, o, n);
      semcnt := semcnt[o := n];
      ghost var c := Con();
      g := g1;
      assert Con() == c;
    }

    method PolSem(o: nat) returns (er: ER)
      requires Valid()
      modifies this
      ensures Valid() && (g, er) == KernelSpec.PolSem(old(g), o)
    {
      PolSemInv(g, o);
      if intctx {
        return ECtx;
      }
      if !IsSem(obj, o) {
        return EId;
      }
      if semcnt[o] >= 1 {
        NoWaiters(g, o);
        SetSemcnt(o, semcnt[o] - 1);
        er := Ok;
      } else {
        er := ETmout;
      }
    }

    method SigSem(o: nat) returns (er: ER)
      requires Valid()
      modifies this
      ensures Valid() && (g, er) == KernelSpec.SigSem(old(g), o)
    {
      SigSemInv(g, o);
      if !IsSem(obj, o) {
        return EId;
      }
      if wq[o] != [] {
        ReleaseHead(o, Ok);
        Resched();
        er := Ok;
      } else if semcnt[o] < obj[o].max {
        SetSemcnt(o, semcnt[o] + 1);
        er := Ok;
      } else {
        er := EQovr;
      }
    }

    method IniSem(o: nat) returns (er: ER)
      requires Valid()
      modifies this
      ensures Valid() && (g, er) == KernelSpec.IniSem(old(g), o)
    {
      IniSemInv(g, o);
      if intctx {
        return ECtx;
      }
      if !IsSem(obj, o) {
        return EId;
      }
      assert ObjOk(g, o);
      UnwaitAllCore(g, o, Que(g, o), EDlt);
      InitWaitQueue(o);
      SetSemcnt(o, obj[o].init);
      Dispatch();
      er := Ok;
    }

    // ---------- interrupts ----------

    method SetContext(ctx: bool)
      requires Stands(None, None)
      modifies this
      ensures Stands(None, None) && g == old(g).(ctx := ctx)
    {
      FlagsStep(Con(), g, enadsp, ipmopen, ctx);
      ghost var c, g1 := Con().(ctx := ctx), g.(ctx := ctx);
      intctx := ctx;
      g := g1;
      assert Con() == c;
    }

    method EnterInterrupt()
      requires Valid()
      modifies this
      ensures Valid() && g == Next(old(g), IntEnter)
    {
      NextInv(g, IntEnter);
      SetContext(true);
    }

    /** A return from an interrupt handler dispatches. */
    method ReturnInterrupt()
      requires Valid()
      modifies this
      ensures Valid() && g == Next(old(g), IntExit)
    {
      NextInv(g, IntExit);
      SetContext(false);
      Dispatch();
    }

    method SignalTimeEvent(t: nat)
      requires Valid()
      modifies this
      ensures Valid() && g == Next(old(g), TimeEvent(t))
    {
      NextInv(g, TimeEvent(t));
      if t < |tcb| {
        TaskFacts(Con(), g, None, None, t);
        if intctx && t in tmev {
          assert EventAt(Con().tmev, g, t);
          ExpireWait(t);
        }
      }
    }

    // ---------- whole runs ----------

    /** Before the first task is activated. */
    constructor (k: K)
      requires Initial(k)
      ensures Valid() && g == k && obj == k.obj
    {
      obj := k.obj;
      tcb := seq(|k.tsk|, t requires 0 <= t < |k.tsk| => InitialBlock(k.tsk[t]));
      readyq := seq(LEVELS, _ => []);
      primap := 0;
      schedtsk, runtsk := None, None;
      dspflg, enadsp, ipmopen, intctx := true, true, true, k.ctx;
      wq := k.wq;
      semcnt := k.cnt;
      loctsk := k.own;
      prevmtx := seq(|k.obj|, _ => None);
      tmev := {};
      g := k;
      new;
      InitialInv(k);
      InitialQueues(Prios(tcb), readyq);
      InitialRel(Con(), k);
    }

    /** A service call of task management and synchronization. */
    method CallTask(c: Call) returns (er: ER)
      requires c.CActTsk? || c.CChgPri? || c.CSlpTsk? || c.CDlyTsk? || c.CWupTsk? || c.CRelWai? || c.CSusTsk? || c.CRsmTsk?
      requires Valid() && (intctx || runtsk.Some?)
      modifies this
      ensures Valid() && (g, er) == KernelSpec.DoCall(old(g), c)
    {
      match c
      case CActTsk(t) =>
        assert KernelSpec.DoCall(g, c) == KernelSpec.ActTsk(g, t);
        er := ActTsk(t);
      case CChgPri(t, p) =>
        assert KernelSpec.DoCall(g, c) == KernelSpec.ChgPri(g, t, p);
        er := ChgPri(t, p);
      case CSlpTsk(tmo) =>
        assert KernelSpec.DoCall(g, c) == KernelSpec.SlpTsk(g, tmo);
        er := SlpTsk(tmo);
      case CDlyTsk(d) =>
        assert KernelSpec.DoCall(g, c) == KernelSpec.DlyTsk(g, d);
        er := DlyTsk(d);
      case CWupTsk(t) =>
        assert KernelSpec.DoCall(g, c) == KernelSpec.WupTsk(g, t);
        er := WupTsk(t);
      case CRelWai(t) =>
        assert KernelSpec.DoCall(g, c) == KernelSpec.RelWai(g, t);
        er := RelWai(t);
      case CSusTsk(t) =>
        assert KernelSpec.DoCall(g, c) == KernelSpec.SusTsk(g, t);
        er := SusTsk(t);
      case CRsmTsk(t) =>
        assert KernelSpec.DoCall(g, c) == KernelSpec.RsmTsk(g, t);
        er := RsmTsk(t);
    }

    /** A service call of task termination. */
    method CallEnd(c: Call) returns (er: ER)
      requires c.CExtTsk? || c.CRasTer? || c.CDisTer? || c.CEnaTer? || c.CTerTsk?
      requires Valid() && (intctx || runtsk.Some?)
      modifies this
      ensures Valid() && (g, er) == KernelSpec.DoCall(old(g), c)
    {
      match c
      case CExtTsk =>
        assert KernelSpec.DoCall(g, c) == KernelSpec.ExtTsk(g);
        er := ExtTsk();
      case CRasTer(t) =>
        assert KernelSpec.DoCall(g, c) == KernelSpec.RasTer(g, t);
        er := RasTer(t);
      case CDisTer =>
        assert KernelSpec.DoCall(g, c) == KernelSpec.DisTer(g);
        er := DisTer();
      case CEnaTer =>
        assert KernelSpec.DoCall(g, c) == KernelSpec.EnaTer(g);
        er := EnaTer();
      case CTerTsk(t) =>
        assert KernelSpec.DoCall(g, c) == KernelSpec.TerTsk(g, t);
        er := TerTsk(t);
    }

    /** A service call of system management. */
    method CallSystem(c: Call) returns (er: ER)
      requires c.CRotRdq? || c.CDisDsp? || c.CEnaDsp? || c.CChgIpm?
      requires Valid() && (intctx || runtsk.Some?)
      modifies this
      ensures Valid() && (g, er) == KernelSpec.DoCall(old(g), c)
    {
      match c
      case CRotRdq(p) =>
        assert KernelSpec.DoCall(g, c) == KernelSpec.RotRdq(g, p);
        er := RotRdq(p);
      case CDisDsp =>
        assert KernelSpec.DoCall(g, c) == KernelSpec.DisDsp(g);
        er := DisDsp();
      case CEnaDsp =>
        assert KernelSpec.DoCall(g, c) == KernelSpec.EnaDsp(g);
        er := EnaDsp();
      case CChgIpm(open) =>
        assert KernelSpec.DoCall(g, c) == KernelSpec.ChgIpm(g, open);
        er := ChgIpm(open);
    }

    /** A service call on mutexes. */
    method CallMutex(c: Call) returns (er: ER)
      requires c.CLocMtx? || c.CPlocMtx? || c.CUnlMtx? || c.CIniMtx?
      requires Valid() && (intctx || runtsk.Some?)
      modifies this
      ensures Valid() && (g, er) == KernelSpec.DoCall(old(g), c)
    {
      match c
      case CLocMtx(m, tmo) =>
        assert KernelSpec.DoCall(g, c) == KernelSpec.LocMtx(g, m, tmo);
        er := LocMtx(m, tmo);
      case CPlocMtx(m) =>
        assert KernelSpec.DoCall(g, c) == KernelSpec.PlocMtx(g, m);
        er := PlocMtx(m);
      case CUnlMtx(m) =>
        assert KernelSpec.DoCall(g, c) == KernelSpec.UnlMtx(g, m);
        er := UnlMtx(m);
      case CIniMtx(m) =>
        assert KernelSpec.DoCall(g, c) == KernelSpec.IniMtx(g, m);
        er := IniMtx(m);
    }

    /** A service call on semaphores. */
    method CallSemaphore(c: Call) returns (er: ER)
      requires c.CWaiSem? || c.CPolSem? || c.CSigSem? || c.CIniSem?
      requires Valid() && (intctx || runtsk.Some?)
      modifies this
      ensures Valid() && (g, er) == KernelSpec.DoCall(old(g), c)
    {
      if c.CWaiSem? || c.CPolSem? {
        er := TakeSemaphore(c);
      } else {
        er := GiveSemaphore(c);
      }
    }

    method TakeSemaphore(c: Call) returns (er: ER)
      requires c.CWaiSem? || c.CPolSem?
      requires Valid() && (intctx || runtsk.Some?)
      modifies this
      ensures Valid() && (g, er) == KernelSpec.DoCall(old(g), c)
    {
      match c
      case CWaiSem(o, tmo) =>
        assert KernelSpec.DoCall(g, c) == KernelSpec.WaiSem(g, o, tmo);
        er := WaiSem(o, tmo);
      case CPolSem(o) =>
        assert KernelSpec.DoCall(g, c) == KernelSpec.PolSem(g, o);
        er := PolSem(o);
    }

    method GiveSemaphore(c: Call) returns (er: ER)
      requires c.CSigSem? || c.CIniSem?
      requires Valid() && (intctx || runtsk.Some?)
      modifies this
      ensures Valid() && (g, er) == KernelSpec.DoCall(old(g), c)
    {
      match c
      case CSigSem(o) =>
        assert KernelSpec.DoCall(g, c) == KernelSpec.SigSem(g, o);
        er := SigSem(o);
      case CIniSem(o) =>
        assert KernelSpec.DoCall(g, c) == KernelSpec.IniSem(g, o);
        er := IniSem(o);
    }

    /** One service call, whatever it is. */
    method DoCall(c: Call) returns (er: ER)
      requires Valid() && (intctx || runtsk.Some?)
      modifies this
      ensures Valid() && (g, er) == KernelSpec.DoCall(old(g), c)
    {
      if c.CActTsk? || c.CChgPri? || c.CSlpTsk? || c.CDlyTsk? || c.CWupTsk? || c.CRelWai? || c.CSusTsk? || c.CRsmTsk? {
        er := CallTask(c);
      } else if c.CExtTsk? || c.CRasTer? || c.CDisTer? || c.CEnaTer? || c.CTerTsk? {
        er := CallEnd(c);
      } else if c.CRotRdq? || c.CDisDsp? || c.CEnaDsp? || c.CChgIpm? {
        er := CallSystem(c);
      } else if c.CLocMtx? || c.CPlocMtx? || c.CUnlMtx? || c.CIniMtx? {
        er := CallMutex(c);
      } else {
        er := CallSemaphore(c);
      }
    }

    /** Step by step, the kernel does what the specification says. */
    method Perform(e: Step)
      requires Valid()
      modifies this
      ensures Valid() && g == Next(old(g), e)
    {
      match e
      case Do(c) =>
        if intctx || runtsk != None {
          var er := DoCall(c);
        }
      case IntEnter => EnterInterrupt();
      case IntExit => ReturnInterrupt();
      case TimeEvent(t) => SignalTimeEvent(t);
    }
  }
}
