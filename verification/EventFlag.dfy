/** Event flags: a pattern of bits, and the tasks that wait for some or all of certain bits. A pattern is the set
    of its bits. */
module EventFlag {
  import opened Waiters

  type Pattern = set<nat>

  /** What a task waits for: all bits of a pattern, or with `orw` any of them. */
  datatype Wish = Wish(waiptn: Pattern, orw: bool)

  datatype ER = Ok(flgptn: Pattern) | EPar | EIluse | Blocked | Tmout

  predicate Met(flgptn: Pattern, w: Wish) {
    if w.orw then flgptn * w.waiptn != {} else w.waiptn <= flgptn
  }

  /** Fewer bits meet no more wishes, and no bits meet none. */
  lemma FewerBits(a: Pattern, b: Pattern, w: Wish)
    requires a <= b && w.waiptn != {}
    ensures Met(a, w) ==> Met(b, w)
    ensures a == {} ==> !Met(a, w)
  {}

  // ---------- what setting bits does ----------

  /** The waiters whose wishes are met leave, in their order; with `clr` only the first of them. */
  function Stay(q: seq<Waiter<Wish>>, flgptn: Pattern, clr: bool): seq<Waiter<Wish>> {
    if q == [] then []
    else if Met(flgptn, q[0].what) then (if clr then q[1..] else Stay(q[1..], flgptn, clr))
    else [q[0]] + Stay(q[1..], flgptn, clr)
  }

  /** Their answers: the pattern at the time. */
  function Leave(q: seq<Waiter<Wish>>, flgptn: Pattern, clr: bool): seq<Answer<Pattern>> {
    if q == [] then []
    else if Met(flgptn, q[0].what) then [Served(q[0].task, flgptn)] + (if clr then [] else Leave(q[1..], flgptn, clr))
    else Leave(q[1..], flgptn, clr)
  }

  ghost predicate NoneMet(q: seq<Waiter<Wish>>, flgptn: Pattern) {
    forall i :: 0 <= i < |q| ==> q[i].what.waiptn != {} && !Met(flgptn, q[i].what)
  }

  ghost predicate Sound(q: seq<Waiter<Wish>>) { forall i :: 0 <= i < |q| ==> q[i].what.waiptn != {} }

  /** Whoever still waits afterwards waits for a pattern that is not there. */
  lemma {:induction false} StayUnmet(q: seq<Waiter<Wish>>, flgptn: Pattern, clr: bool)
    requires Sound(q)
    ensures var q1 := Stay(q, flgptn, clr);
      && Sound(q1) && |q1| <= |q|
      && NoneMet(q1, if clr && Leave(q, flgptn, clr) != [] then {} else flgptn)
      && (Leave(q, flgptn, clr) == [] ==> q1 == q)
  {
    if q != [] {
      var rest := q[1..];
      StayUnmet(rest, flgptn, clr);
      var q1 := Stay(q, flgptn, clr);
      if Met(flgptn, q[0].what) && clr {
        forall i | 0 <= i < |q1| ensures q1[i].what.waiptn != {} && !Met({}, q1[i].what) { FewerBits({}, {}, q1[i].what); }
      } else if !Met(flgptn, q[0].what) {
        FewerBits({}, flgptn, q[0].what);
      }
    }
  }

  /** Whoever leaves is answered once, and whoever stays is not. */
  lemma {:induction false} StayOrLeave(q: seq<Waiter<Wish>>, flgptn: Pattern, clr: bool, t: nat)
    ensures Times(t, Tasks(Stay(q, flgptn, clr))) + Times(t, Answerees(Leave(q, flgptn, clr))) == Times(t, Tasks(q))
  {
    if q != [] {
      StayOrLeave(q[1..], flgptn, clr, t);
      var rest := Leave(q[1..], flgptn, clr);
      assert ([Served(q[0].task, flgptn)] + rest)[1..] == rest;
      assert ([q[0]] + Stay(q[1..], flgptn, clr))[1..] == Stay(q[1..], flgptn, clr);
    }
  }

  /** With clearing, the first waiter whose wish is met leaves, with the pattern, and nobody else. */
  lemma {:induction false} FirstMetLeaves(q: seq<Waiter<Wish>>, flgptn: Pattern, j: nat)
    requires j < |q| && Met(flgptn, q[j].what) && forall i :: 0 <= i < j ==> !Met(flgptn, q[i].what)
    ensures Stay(q, flgptn, true) == q[..j] + q[j + 1..] && Leave(q, flgptn, true) == [Served(q[j].task, flgptn)]
  {
    if j > 0 {
      FirstMetLeaves(q[1..], flgptn, j - 1);
      assert [q[0]] + (q[1..][..j - 1] + q[1..][j..]) == q[..j] + q[j + 1..];
    }
  }

  /** Without it, each waiter leaves or stays by its own wish, behind those ahead of it in the queue. */
  lemma EachByItsWish(q: seq<Waiter<Wish>>, w: Waiter<Wish>, flgptn: Pattern)
    ensures Stay(q + [w], flgptn, false) == Stay(q, flgptn, false) + (if Met(flgptn, w.what) then [] else [w])
    ensures Leave(q + [w], flgptn, false) == Leave(q, flgptn, false) + (if Met(flgptn, w.what) then [Served(w.task, flgptn)] else [])
  {
    StaysByItsWish(q, w, flgptn);
    LeavesByItsWish(q, w, flgptn);
  }

  lemma {:induction false} StaysByItsWish(q: seq<Waiter<Wish>>, w: Waiter<Wish>, flgptn: Pattern)
    ensures Stay(q + [w], flgptn, false) == Stay(q, flgptn, false) + (if Met(flgptn, w.what) then [] else [w])
  {
    if q == [] {
      assert [] + [w] == [w];
    } else {
      StaysByItsWish(q[1..], w, flgptn);
      assert (q + [w])[1..] == q[1..] + [w];
    }
  }

  lemma {:induction false} LeavesByItsWish(q: seq<Waiter<Wish>>, w: Waiter<Wish>, flgptn: Pattern)
    ensures Leave(q + [w], flgptn, false) == Leave(q, flgptn, false) + (if Met(flgptn, w.what) then [Served(w.task, flgptn)] else [])
  {
    if q == [] {
      assert [] + [w] == [w];
    } else {
      LeavesByItsWish(q[1..], w, flgptn);
      assert (q + [w])[1..] == q[1..] + [w];
    }
  }

  class EventFlag {
    const clr: bool
    const wmul: bool
    const tpri: bool
    const iflgptn: Pattern
    var flgptn: Pattern
    var waitQueue: seq<Waiter<Wish>>
    var answers: seq<Answer<Pattern>>

    /** Nobody waits for what is there; without `wmul` no two tasks wait. */
    ghost predicate Valid()
      reads this
    {
      NoneMet(waitQueue, flgptn) && (!wmul ==> |waitQueue| <= 1)
    }

    constructor (clear: bool, multiple: bool, byPriority: bool, initial: Pattern)
      ensures Valid() && flgptn == iflgptn == initial && clr == clear && wmul == multiple && tpri == byPriority
      ensures waitQueue == [] && answers == []
    {
      clr, wmul, tpri, iflgptn := clear, multiple, byPriority, initial;
      flgptn, waitQueue, answers := initial, [], [];
    }

    /** `check_flg_cond` */
    method CheckFlgCond(w: Wish) returns (met: bool, ptn: Pattern)
      modifies `flgptn
      ensures met <==> Met(old(flgptn), w)
      ensures ptn == old(flgptn) && flgptn == if met && clr then {} else old(flgptn)
    {
      ptn := flgptn;
      met := if w.orw then flgptn * w.waiptn != {} else flgptn * w.waiptn == w.waiptn;
      assert flgptn * w.waiptn == w.waiptn <==> w.waiptn <= flgptn;
      if met {
        if clr {
          flgptn := {};
        }
      }
    }

    /** Bits are set, and the queue is walked for wishes that are met; with `clr` the first of them takes all
        bits away. */
    method SetFlg(setptn: Pattern)
      requires Valid()
      modifies this
      ensures Valid()
      ensures var ptn := old(flgptn) + setptn;
        && waitQueue == Stay(old(waitQueue), ptn, clr)
        && answers == old(answers) + Leave(old(waitQueue), ptn, clr)
        && flgptn == if clr && Leave(old(waitQueue), ptn, clr) != [] then {} else ptn
    {
      StayUnmet(waitQueue, flgptn + setptn, clr);
      flgptn := flgptn + setptn;
      WalkQueue();
    }

    method WalkQueue()
      modifies this
      ensures waitQueue == Stay(old(waitQueue), old(flgptn), clr)
      ensures answers == old(answers) + Leave(old(waitQueue), old(flgptn), clr)
      ensures flgptn == if clr && Leave(old(waitQueue), old(flgptn), clr) != [] then {} else old(flgptn)
    {
      ghost var q0, a0, ptn := waitQueue, answers, flgptn;
      var i := 0;
      assert waitQueue[..0] + Stay(q0, ptn, clr) == Stay(q0, ptn, clr) && waitQueue[0..] == waitQueue;
      while i < |waitQueue|
        invariant 0 <= i <= |waitQueue| && flgptn == ptn
        invariant waitQueue[..i] + Stay(waitQueue[i..], ptn, clr) == Stay(q0, ptn, clr)
        invariant answers + Leave(waitQueue[i..], ptn, clr) == a0 + Leave(q0, ptn, clr)
        invariant clr ==> answers == a0 && Leave(waitQueue[i..], ptn, clr) == Leave(q0, ptn, clr)
        decreases |waitQueue| - i
      {
        var w := waitQueue[i];
        ghost var q, more := waitQueue, Leave(waitQueue[i + 1..], ptn, clr);
        assert q[i..][1..] == q[i + 1..];
        var met, p := CheckFlgCond(w.what);
        if met {
          waitQueue := waitQueue[..i] + waitQueue[i + 1..];
          assert waitQueue[..i] == q[..i] && waitQueue[i..] == q[i + 1..];
          Regroup(answers, answers + [Served(w.task, p)], w, p, more);
          answers := answers + [Served(w.task, p)];
          if clr {
            return;
          }
        } else {
          assert q[..i + 1] == q[..i] + [w];
          KeepGoing(q[..i], w, Stay(q[i + 1..], ptn, clr));
          i := i + 1;
        }
      }
      assert waitQueue[..i] == waitQueue && waitQueue[i..] == [];
    }

    lemma KeepGoing(a: seq<Waiter<Wish>>, w: Waiter<Wish>, rest: seq<Waiter<Wish>>)
      ensures a + ([w] + rest) == a + [w] + rest
    {}

    lemma Regroup(b: seq<Answer<Pattern>>, a: seq<Answer<Pattern>>, w: Waiter<Wish>, p: Pattern, more: seq<Answer<Pattern>>)
      requires a == b + [Served(w.task, p)]
      ensures b + ([Served(w.task, p)] + more) == a + more
    {}

    method ClrFlg(clrptn: Pattern)
      requires Valid()
      modifies `flgptn
      ensures Valid() && flgptn == old(flgptn) * clrptn
    {
      ghost var was := flgptn;
      flgptn := flgptn * clrptn;
      forall i | 0 <= i < |waitQueue| ensures !Met(flgptn, waitQueue[i].what) { FewerBits(flgptn, was, waitQueue[i].what); }
    }

    /** `wai_flg`, or with `poll` `pol_flg`. */
    method WaiFlg(t: nat, pri: nat, w: Wish, poll: bool) returns (er: ER)
      requires Valid()
      modifies this
      ensures Valid() && answers == old(answers)
      ensures w.waiptn == {} ==> er == EPar
      ensures w.waiptn != {} && !wmul && old(waitQueue) != [] ==> er == EIluse
      ensures w.waiptn != {} && (wmul || old(waitQueue) == []) ==>
        er == (if Met(old(flgptn), w) then Ok(old(flgptn)) else if poll then Tmout else Blocked)
      ensures flgptn == if er.Ok? && clr then {} else old(flgptn)
      ensures waitQueue == if er == Blocked then Enroll(old(waitQueue), Waiter(t, pri, w), tpri) else old(waitQueue)
    {
      if w.waiptn == {} {
        return EPar;
      }
      if !wmul && waitQueue != [] {
        return EIluse;
      }
      ghost var was := flgptn;
      var met, p := CheckFlgCond(w);
      if met {
        forall i | 0 <= i < |waitQueue| ensures !Met(flgptn, waitQueue[i].what) { FewerBits(flgptn, was, waitQueue[i].what); }
        er := Ok(p);
      } else if poll {
        er := Tmout;
      } else {
        ghost var q := waitQueue;
        EnrollNotEmpty(waitQueue, Waiter(t, pri, w), tpri);
        waitQueue := Enroll(waitQueue, Waiter(t, pri, w), tpri);
        forall i | 0 <= i < |waitQueue| ensures waitQueue[i].what.waiptn != {} && !Met(flgptn, waitQueue[i].what) {
          assert waitQueue[i] in waitQueue;
          if waitQueue[i] != Waiter(t, pri, w) {
            var j :| 0 <= j < |q| && q[j] == waitQueue[i];
          }
        }
        er := Blocked;
      }
    }

    /** A task stops waiting without its wish being met. */
    method GiveUp(t: nat, er: Refusal)
      requires Valid()
      modifies `waitQueue, `answers
      ensures Valid() && waitQueue == Withdraw(old(waitQueue), t)
      ensures answers == if t in Tasks(old(waitQueue)) then old(answers) + [Refused(t, er)] else old(answers)
    {
      ghost var q := waitQueue;
      WithdrawSubset(waitQueue, t);
      if t in Tasks(waitQueue) {
        answers := answers + [Refused(t, er)];
      }
      waitQueue := Withdraw(waitQueue, t);
      forall i | 0 <= i < |waitQueue| ensures waitQueue[i].what.waiptn != {} && !Met(flgptn, waitQueue[i].what) {
        assert waitQueue[i] in waitQueue;
        var j :| 0 <= j < |q| && q[j] == waitQueue[i];
      }
    }

    method IniFlg()
      requires Valid()
      modifies this
      ensures Valid() && flgptn == iflgptn && waitQueue == [] && answers == old(answers) + Refuse(old(waitQueue), Deleted)
    {
      while waitQueue != []
        invariant answers + Refuse(waitQueue, Deleted) == old(answers) + Refuse(old(waitQueue), Deleted)
        decreases |waitQueue|
      {
        ghost var rest := Refuse(waitQueue[1..], Deleted);
        assert answers + ([Refused(waitQueue[0].task, Deleted)] + rest) == answers + [Refused(waitQueue[0].task, Deleted)] + rest;
        answers := answers + [Refused(waitQueue[0].task, Deleted)];
        waitQueue := waitQueue[1..];
      }
      flgptn := iflgptn;
    }
  }
}
