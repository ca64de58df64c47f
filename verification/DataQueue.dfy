/** Data queues on their ring buffers. */
module DataQueue {
  import opened Ring
  import opened Waiters
  import opened DataQueueSpec

  class DataQueue {
    const dtqcnt: nat
    const tpri: bool
    const dtqmb: array<int>
    var count: nat
    var head: nat
    var tail: nat
    var swaitQueue: seq<Waiter<int>>
    var rwaitQueue: seq<Waiter<()>>
    var answers: seq<Answer<int>>

    ghost predicate Valid()
      reads this, dtqmb
    {
      && dtqmb.Length == dtqcnt
      && if dtqcnt == 0 then count == 0 else InRing(dtqmb[..], head, tail, count)
    }

    ghost function Buffered(): seq<int>
      requires Valid()
      reads this, dtqmb
    {
      if dtqcnt == 0 then [] else Entries(dtqmb[..], head, count)
    }

    ghost function State(): Dtq
      requires Valid()
      reads this, dtqmb
    {
      Dtq(dtqcnt, tpri, Buffered(), swaitQueue, rwaitQueue, answers)
    }

    constructor (cnt: nat, byPriority: bool)
      ensures Valid() && State() == Dtq(cnt, byPriority, [], [], [], []) && fresh(dtqmb)
    {
      dtqcnt, tpri := cnt, byPriority;
      dtqmb := new int[cnt];
      count, head, tail := 0, 0, 0;
      swaitQueue, rwaitQueue, answers := [], [], [];
    }

    method EnqueueData(data: int)
      requires Valid() && count < dtqcnt
      modifies `count, `tail, dtqmb
      ensures Valid() && Buffered() == old(Buffered()) + [data]
    {
      Pushed(dtqmb[..], head, tail, count, data);
      ghost var buf := dtqmb[..][tail := data];
      dtqmb[tail] := data;
      assert dtqmb[..] == buf;
      count := count + 1;
      tail := tail + 1;
      if tail >= dtqcnt {
        tail := 0;
      }
    }

    method ForceEnqueueData(data: int)
      requires Valid() && dtqcnt > 0
      modifies `count, `head, `tail, dtqmb
      ensures Valid()
      ensures Buffered() == (if old(count) < dtqcnt then old(Buffered()) else old(Buffered())[1..]) + [data]
    {
      ForcePushed(dtqmb[..], head, tail, count, data);
      ghost var buf := dtqmb[..][tail := data];
      dtqmb[tail] := data;
      assert dtqmb[..] == buf;
      tail := tail + 1;
      if tail >= dtqcnt {
        tail := 0;
      }
      if count < dtqcnt {
        count := count + 1;
      } else {
        head := tail;
      }
    }

    lemma ForcePushed(buf: seq<int>, head: nat, tail: nat, count: nat, x: int)
      requires InRing(buf, head, tail, count)
      ensures var buf1, tail1 := buf[tail := x], Inc(tail, |buf|);
        if count < |buf| then InRing(buf1, head, tail1, count + 1) && Entries(buf1, head, count + 1) == Entries(buf, head, count) + [x]
        else InRing(buf1, tail1, tail1, count) && Entries(buf1, tail1, count) == Entries(buf, head, count)[1..] + [x]
    {
      if count < |buf| { Pushed(buf, head, tail, count, x); }
    }

    method DequeueData() returns (data: int)
      requires Valid() && count > 0
      modifies `count, `head
      ensures Valid() && data == old(Buffered())[0] && Buffered() == old(Buffered())[1..]
    {
      Popped(dtqmb[..], head, tail, count);
      data := dtqmb[head];
      count := count - 1;
      head := head + 1;
      if head >= dtqcnt {
        head := 0;
      }
    }

    /** The first receiver gets the datum. */
    method Deliver(data: int)
      requires Valid() && rwaitQueue != []
      modifies `rwaitQueue, `answers
      ensures Valid() && Buffered() == old(Buffered())
      ensures rwaitQueue == old(rwaitQueue)[1..] && answers == old(answers) + [Served(old(rwaitQueue)[0].task, data)]
    {
      var w := rwaitQueue[0];
      rwaitQueue := rwaitQueue[1..];
      answers := answers + [Served(w.task, data)];
    }

    method SendData(data: int) returns (sent: bool)
      requires Valid()
      modifies this, dtqmb
      ensures Valid() && (State(), sent) == DataQueueSpec.SendData(old(State()), data)
    {
      if rwaitQueue != [] {
        Deliver(data);
        return true;
      } else if count < dtqcnt {
        EnqueueData(data);
        return true;
      } else {
        return false;
      }
    }

    method ForceSendData(data: int)
      requires Valid() && dtqcnt > 0
      modifies this, dtqmb
      ensures Valid() && State() == DataQueueSpec.ForceSendData(old(State()), data)
    {
      if rwaitQueue != [] {
        Deliver(data);
      } else {
        ForceEnqueueData(data);
      }
    }

    method ReceiveData() returns (o: Outcome)
      requires Valid() && (swaitQueue != [] ==> count == dtqcnt)
      modifies this, dtqmb
      ensures Valid() && (State(), o) == DataQueueSpec.ReceiveData(old(State()))
    {
      if count > 0 {
        var data := DequeueData();
        if swaitQueue != [] {
          var w := swaitQueue[0];
          swaitQueue := swaitQueue[1..];
          EnqueueData(w.what);
          answers := answers + [Served(w.task, 0)];
        }
        o := Got(data);
      } else if swaitQueue != [] {
        var w := swaitQueue[0];
        swaitQueue := swaitQueue[1..];
        answers := answers + [Served(w.task, 0)];
        o := Got(w.what);
      } else {
        o := Tmout;
      }
    }

    method SndDtq(w: Waiter<int>) returns (o: Outcome)
      requires Valid() && Lawful(State())
      modifies this, dtqmb
      ensures Valid() && Lawful(State()) && (State(), o) == Next(old(State()), Snd(w))
    {
      NextLawful(State(), Snd(w));
      var sent := SendData(w.what);
      if sent {
        o := Done;
      } else {
        swaitQueue := Enroll(swaitQueue, w, tpri);
        o := Blocked;
      }
    }

    method FsndDtq(data: int) returns (o: Outcome)
      requires Valid() && Lawful(State())
      modifies this, dtqmb
      ensures Valid() && Lawful(State()) && (State(), o) == Next(old(State()), Fsnd(data))
    {
      NextLawful(State(), Fsnd(data));
      if !(dtqcnt > 0) {
        o := IllegalUse;
      } else {
        ForceSendData(data);
        o := Done;
      }
    }

    method RcvDtq(r: Waiter<()>) returns (o: Outcome)
      requires Valid() && Lawful(State())
      modifies this, dtqmb
      ensures Valid() && Lawful(State()) && (State(), o) == Next(old(State()), Rcv(r))
    {
      NextLawful(State(), Rcv(r));
      o := ReceiveData();
      if !o.Got? {
        rwaitQueue := Enroll(rwaitQueue, r, false);
        o := Blocked;
      }
    }

    method PsndDtq(data: int) returns (o: Outcome)
      requires Valid() && Lawful(State())
      modifies this, dtqmb
      ensures Valid() && Lawful(State()) && (State(), o) == Next(old(State()), Psnd(data))
    {
      NextLawful(State(), Psnd(data));
      var sent := SendData(data);
      o := if sent then Done else Tmout;
    }

    method PrcvDtq() returns (o: Outcome)
      requires Valid() && Lawful(State())
      modifies this, dtqmb
      ensures Valid() && Lawful(State()) && (State(), o) == Next(old(State()), Prcv)
    {
      NextLawful(State(), Prcv);
      o := ReceiveData();
    }

    /** A sender stops waiting without its datum being taken. */
    method GiveUpSnd(t: nat, er: Refusal)
      requires Valid() && Lawful(State())
      modifies `swaitQueue, `answers
      ensures Valid() && Lawful(State()) && State() == Next(old(State()), GiveUpSending(t, er)).0
    {
      NextLawful(State(), GiveUpSending(t, er));
      if t in Tasks(swaitQueue) {
        swaitQueue := Withdraw(swaitQueue, t);
        answers := answers + [Refused(t, er)];
      }
    }

    method GiveUpRcv(t: nat, er: Refusal)
      requires Valid() && Lawful(State())
      modifies `rwaitQueue, `answers
      ensures Valid() && Lawful(State()) && State() == Next(old(State()), GiveUpReceiving(t, er)).0
    {
      NextLawful(State(), GiveUpReceiving(t, er));
      if t in Tasks(rwaitQueue) {
        rwaitQueue := Withdraw(rwaitQueue, t);
        answers := answers + [Refused(t, er)];
      }
    }

    method IniDtq()
      requires Valid()
      modifies this
      ensures Valid() && State() == Next(old(State()), Ini).0
    {
      swaitQueue := RefuseAll(swaitQueue);
      rwaitQueue := RefuseAll(rwaitQueue);
      count, head, tail := 0, 0, 0;
    }

    /** Every waiting task is released, the first one first. */
    method RefuseAll<D>(q: seq<Waiter<D>>) returns (none: seq<Waiter<D>>)
      modifies `answers
      ensures none == [] && answers == old(answers) + Refuse(q, Deleted)
    {
      none := q;
      while none != []
        invariant answers + Refuse(none, Deleted) == old(answers) + Refuse(q, Deleted)
        decreases |none|
      {
        ghost var rest := Refuse(none[1..], Deleted);
        assert answers + ([Refused(none[0].task, Deleted)] + rest) == answers + [Refused(none[0].task, Deleted)] + rest;
        answers := answers + [Refused(none[0].task, Deleted)];
        none := none[1..];
      }
    }
  }
}
