/** The tasks that wait for a communication object, each with what it left there: the data it sends, or what
    it waits for. Here a task is a number and keeps its priority while it waits; how tasks move in wait
    queues when priorities change is the subject of `KernelSpec`.
  */
module Waiters {

  datatype Waiter<+D> = Waiter(task: nat, pri: nat, what: D)

  /** How the wait of a task has ended: with what it waited for, or with an error. */
  datatype Answer<+D> = Served(task: nat, what: D) | Refused(task: nat, er: Refusal)

  datatype Refusal = Deleted | TimedOut | Released

  /** A newcomer goes to the end, or, by priority, behind its equals. */
  function Enroll<D>(q: seq<Waiter<D>>, w: Waiter<D>, tpri: bool): seq<Waiter<D>> {
    if q == [] || (tpri && w.pri < q[0].pri) then [w] + q
    else [q[0]] + Enroll(q[1..], w, tpri)
  }

  /** The waiter for task `t`, if there is one, gives up. */
  function Withdraw<D>(q: seq<Waiter<D>>, t: nat): seq<Waiter<D>> {
    if q == [] then [] else if q[0].task == t then q[1..] else [q[0]] + Withdraw(q[1..], t)
  }

  function Tasks<D>(q: seq<Waiter<D>>): seq<nat> {
    if q == [] then [] else [q[0].task] + Tasks(q[1..])
  }

  function Refuse<D, E>(q: seq<Waiter<D>>, er: Refusal): seq<Answer<E>> {
    if q == [] then [] else [Refused(q[0].task, er)] + Refuse(q[1..], er)
  }

  lemma {:induction false} EnrollLast<D>(q: seq<Waiter<D>>, w: Waiter<D>)
    ensures Enroll(q, w, false) == q + [w]
  {
    if q != [] { EnrollLast(q[1..], w); }
  }

  lemma {:induction false} EnrollNotEmpty<D>(q: seq<Waiter<D>>, w: Waiter<D>, tpri: bool)
    ensures |Enroll(q, w, tpri)| == |q| + 1
    ensures forall x :: x in Enroll(q, w, tpri) <==> x == w || x in q
  {
    if q != [] && !(tpri && w.pri < q[0].pri) {
      EnrollNotEmpty(q[1..], w, tpri);
      assert q == [q[0]] + q[1..];
    }
  }

  lemma {:induction false} WithdrawSubset<D>(q: seq<Waiter<D>>, t: nat)
    ensures |Withdraw(q, t)| <= |q| && forall x :: x in Withdraw(q, t) ==> x in q
  {
    if q != [] && q[0].task != t { WithdrawSubset(q[1..], t); }
  }

  /** Putting `x` into the rest of a sequence and into the sequence. */
  lemma IntoRest<T>(q: seq<T>, x: T, j: nat)
    requires q != [] && j < |q|
    ensures [q[0]] + (q[1..][..j] + [x] + q[1..][j..]) == q[..j + 1] + [x] + q[j + 1..]
  {
    assert q[..j + 1] == [q[0]] + q[1..][..j] && q[j + 1..] == q[1..][j..];
  }

  /** Best priority first. */
  predicate ByPriority<D>(q: seq<Waiter<D>>) {
    forall i, j :: 0 <= i < j < |q| ==> q[i].pri <= q[j].pri
  }

  /** By priority a newcomer goes behind its equals and ahead of all that are worse; the others keep their
      places. */
  lemma {:induction false} EnrollPlace<D>(q: seq<Waiter<D>>, w: Waiter<D>) returns (k: nat)
    requires ByPriority(q)
    ensures k <= |q| && Enroll(q, w, true) == q[..k] + [w] + q[k..] && ByPriority(Enroll(q, w, true))
    ensures forall i :: 0 <= i < k ==> q[i].pri <= w.pri
    ensures forall i :: k <= i < |q| ==> w.pri < q[i].pri
  {
    if q == [] || w.pri < q[0].pri {
      k := 0;
      assert q[..0] == [] && q[0..] == q;
    } else {
      var j := EnrollPlace(q[1..], w);
      k := j + 1;
      IntoRest(q, w, j);
    }
    StillByPriority(q, w, k);
  }

  lemma StillByPriority<D>(q: seq<Waiter<D>>, w: Waiter<D>, k: nat)
    requires ByPriority(q) && k <= |q|
    requires (forall i :: 0 <= i < k ==> q[i].pri <= w.pri) && (forall i :: k <= i < |q| ==> w.pri < q[i].pri)
    ensures ByPriority(q[..k] + [w] + q[k..])
  {
    var r := q[..k] + [w] + q[k..];
    forall i, j | 0 <= i < j < |r| ensures r[i].pri <= r[j].pri {
      assert i < k ==> r[i] == q[i];
      assert i > k ==> r[i] == q[i - 1];
      assert j < k ==> r[j] == q[j];
      assert j > k ==> r[j] == q[j - 1];
    }
  }

  // ---------- nobody is lost ----------

  /** The tasks that answers go to. */
  function Answerees<D>(answers: seq<Answer<D>>): seq<nat> {
    if answers == [] then [] else [answers[0].task] + Answerees(answers[1..])
  }

  /** How often a task is in a list. */
  function Times(t: nat, q: seq<nat>): nat {
    if q == [] then 0 else (if q[0] == t then 1 else 0) + Times(t, q[1..])
  }

  lemma {:induction false} TimesMore(t: nat, a: seq<nat>, b: seq<nat>)
    ensures Times(t, a + b) == Times(t, a) + Times(t, b)
  {
    if a == [] {
      assert a + b == b;
    } else {
      TimesMore(t, a[1..], b);
      assert (a + b)[1..] == a[1..] + b;
    }
  }

  lemma {:induction false} AnswereesMore<D>(a: seq<Answer<D>>, b: seq<Answer<D>>)
    ensures Answerees(a + b) == Answerees(a) + Answerees(b)
  {
    if a == [] {
      assert a + b == b;
    } else {
      AnswereesMore(a[1..], b);
      assert (a + b)[0] == a[0] && (a + b)[1..] == a[1..] + b;
      assert [a[0].task] + (Answerees(a[1..]) + Answerees(b)) == [a[0].task] + Answerees(a[1..]) + Answerees(b);
    }
  }

  lemma AnsweredMore<D>(t: nat, a: seq<Answer<D>>, b: seq<Answer<D>>)
    ensures Times(t, Answerees(a + b)) == Times(t, Answerees(a)) + Times(t, Answerees(b))
  {
    AnswereesMore(a, b);
    TimesMore(t, Answerees(a), Answerees(b));
  }

  lemma {:induction false} EnrollAdds<D>(t: nat, q: seq<Waiter<D>>, w: Waiter<D>, tpri: bool)
    ensures Times(t, Tasks(Enroll(q, w, tpri))) == Times(t, Tasks(q)) + (if w.task == t then 1 else 0)
  {
    if q == [] || (tpri && w.pri < q[0].pri) {
      assert ([w] + q)[1..] == q;
    } else {
      EnrollAdds(t, q[1..], w, tpri);
      assert ([q[0]] + Enroll(q[1..], w, tpri))[1..] == Enroll(q[1..], w, tpri);
    }
  }

  lemma {:induction false} WithdrawTakes<D>(t: nat, q: seq<Waiter<D>>, u: nat)
    requires u in Tasks(q)
    ensures Times(t, Tasks(Withdraw(q, u))) + (if u == t then 1 else 0) == Times(t, Tasks(q))
  {
    if q[0].task != u {
      WithdrawTakes(t, q[1..], u);
      assert ([q[0]] + Withdraw(q[1..], u))[1..] == Withdraw(q[1..], u);
    }
  }

  /** Whoever is refused is refused once, in the order of the queue. */
  lemma {:induction false} RefuseAll<D, E>(q: seq<Waiter<D>>, er: Refusal)
    ensures Answerees(Refuse<D, E>(q, er)) == Tasks(q)
  {
    if q != [] {
      RefuseAll<D, E>(q[1..], er);
      assert Refuse<D, E>(q, er)[1..] == Refuse<D, E>(q[1..], er);
    }
  }

  lemma {:induction false} RefusedAt<D, E>(q: seq<Waiter<D>>, er: Refusal)
    ensures forall i :: 0 <= i < |Refuse<D, E>(q, er)| ==> Refuse<D, E>(q, er)[i].Refused? && Refuse<D, E>(q, er)[i].er == er
  {
    if q != [] { RefusedAt<D, E>(q[1..], er); }
  }
}
