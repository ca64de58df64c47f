/** Data queues as values: the buffered data, the tasks blocked sending and the tasks blocked receiving. */
module DataQueueSpec {
  import opened Waiters

  /** A data queue without its ring: the buffered data, the blocked senders and receivers, and the answers
      that released tasks have got. */
  datatype Dtq = Dtq(cap: nat, tpri: bool, buf: seq<int>, senders: seq<Waiter<int>>, receivers: seq<Waiter<()>>,
                     answers: seq<Answer<int>>)

  /** What became of a call. */
  datatype Outcome = Done | Got(data: int) | Blocked | Tmout | IllegalUse

  // ---------- the operations ----------

  function Answered(q: Dtq, a: Answer<int>): Dtq { q.(answers := q.answers + [a]) }

  /** `send_data`: to the first receiver, else into the buffer. */
  function SendData(q: Dtq, data: int): (Dtq, bool) {
    if q.receivers != [] then (Answered(q.(receivers := q.receivers[1..]), Served(q.receivers[0].task, data)), true)
    else if |q.buf| < q.cap then (q.(buf := q.buf + [data]), true)
    else (q, false)
  }

  /** `force_send_data`: a full buffer loses its oldest datum. */
  function ForceSendData(q: Dtq, data: int): Dtq
    requires q.cap > 0
  {
    if q.receivers != [] then Answered(q.(receivers := q.receivers[1..]), Served(q.receivers[0].task, data))
    else if |q.buf| < q.cap then q.(buf := q.buf + [data])
    else if q.buf == [] then q
    else q.(buf := q.buf[1..] + [data])
  }

  /** `receive_data`: from the buffer, which the first sender then refills, else from the first sender. */
  function ReceiveData(q: Dtq): (Dtq, Outcome) {
    if q.buf != [] then
      if q.senders != [] then
        (Answered(q.(buf := q.buf[1..] + [q.senders[0].what], senders := q.senders[1..]), Served(q.senders[0].task, 0)), Got(q.buf[0]))
      else (q.(buf := q.buf[1..]), Got(q.buf[0]))
    else if q.senders != [] then
      (Answered(q.(senders := q.senders[1..]), Served(q.senders[0].task, 0)), Got(q.senders[0].what))
    else (q, Tmout)
  }

  datatype Call =
    | Snd(w: Waiter<int>) | Psnd(data: int) | Fsnd(data: int) | Rcv(r: Waiter<()>) | Prcv
    | GiveUpSending(t: nat, er: Refusal) | GiveUpReceiving(t: nat, er: Refusal) | Ini

  /** `snd_dtq` and `rcv_dtq` block where `psnd_dtq` and `prcv_dtq` time out at once. */
  function Next(q: Dtq, c: Call): (Dtq, Outcome) {
    match c
    case Snd(w) =>
      var (q1, ok) := SendData(q, w.what);
      if ok then (q1, Done) else (q.(senders := Enroll(q.senders, w, q.tpri)), Blocked)
    case Psnd(data) =>
      var (q1, ok) := SendData(q, data);
      if ok then (q1, Done) else (q, Tmout)
    case Fsnd(data) => if q.cap == 0 then (q, IllegalUse) else (ForceSendData(q, data), Done)
    case Rcv(r) =>
      var (q1, o) := ReceiveData(q);
      if o.Got? then (q1, o) else (q.(receivers := Enroll(q.receivers, r, false)), Blocked)
    case Prcv => ReceiveData(q)
    case GiveUpSending(t, er) =>
      (if t in Tasks(q.senders) then Answered(q.(senders := Withdraw(q.senders, t)), Refused(t, er)) else q, Done)
    case GiveUpReceiving(t, er) =>
      (if t in Tasks(q.receivers) then Answered(q.(receivers := Withdraw(q.receivers, t)), Refused(t, er)) else q, Done)
    case Ini =>
      (q.(buf := [], senders := [], receivers := [],
          answers := q.answers + Refuse(q.senders, Deleted) + Refuse(q.receivers, Deleted)), Done)
  }

  function Run(q: Dtq, cs: seq<Call>): Dtq
    decreases |cs|
  {
    if cs == [] then q else Next(Run(q, cs[..|cs| - 1]), cs[|cs| - 1]).0
  }

  predicate Initial(q: Dtq) { q.buf == [] && q.senders == [] && q.receivers == [] }

  // ---------- no lost wake-up ----------

  /** Senders wait only for a full buffer, receivers only for an empty one that nobody waits to fill. */
  ghost predicate Lawful(q: Dtq) {
    && |q.buf| <= q.cap
    && (q.senders != [] ==> |q.buf| == q.cap)
    && (q.receivers != [] ==> q.buf == [] && q.senders == [])
  }

  lemma NextLawful(q: Dtq, c: Call)
    requires Lawful(q)
    ensures Lawful(Next(q, c).0)
  {
    match c
    case Snd(w) => EnrollNotEmpty(q.senders, w, q.tpri);
    case Rcv(r) => EnrollNotEmpty(q.receivers, r, false);
    case GiveUpSending(t, _) => WithdrawSubset(q.senders, t);
    case GiveUpReceiving(t, _) => WithdrawSubset(q.receivers, t);
    case _ =>
  }

  lemma {:induction false} AlwaysLawful(q: Dtq, cs: seq<Call>)
    requires Initial(q)
    ensures Lawful(Run(q, cs)) && Run(q, cs).cap == q.cap && Run(q, cs).tpri == q.tpri
    decreases |cs|
  {
    if cs != [] {
      AlwaysLawful(q, cs[..|cs| - 1]);
      NextLawful(Run(q, cs[..|cs| - 1]), cs[|cs| - 1]);
    }
  }

  // ---------- one unbounded queue ----------

  function Whats(q: seq<Waiter<int>>): seq<int> {
    if q == [] then [] else [q[0].what] + Whats(q[1..])
  }

  /** The buffered data and, behind them, those of the blocked senders. */
  function Pending(q: Dtq): seq<int> { q.buf + Whats(q.senders) }

  lemma {:induction false} WhatsAppend(q: seq<Waiter<int>>, w: Waiter<int>)
    ensures Whats(q + [w]) == Whats(q) + [w.what]
  {
    if q != [] {
      WhatsAppend(q[1..], w);
      assert (q + [w])[1..] == q[1..] + [w];
    }
  }

  /** Sending, with blocking, is putting a datum at the end of one unbounded queue, or handing it to the first
      of the tasks that wait for one because the queue is empty. */
  lemma SendIsPut(q: Dtq, w: Waiter<int>)
    requires Lawful(q) && !q.tpri
    ensures var q1 := Next(q, Snd(w)).0;
      if q.receivers == [] then Pending(q1) == Pending(q) + [w.what] && q1.answers == q.answers
      else Pending(q) == [] == Pending(q1) && q1.answers == q.answers + [Served(q.receivers[0].task, w.what)]
  {
    EnrollLast(q.senders, w);
    WhatsAppend(q.senders, w);
    if q.receivers == [] && |q.buf| < q.cap {
      assert q.senders == [];
    } else {
      assert q.buf + (Whats(q.senders) + [w.what]) == q.buf + Whats(q.senders) + [w.what];
    }
  }

  /** Receiving is taking from the front of that queue; it fails only when the queue is empty. */
  lemma ReceiveIsTake(q: Dtq)
    requires Lawful(q)
    ensures var (q1, o) := ReceiveData(q);
      if Pending(q) == [] then o == Tmout && q1 == q
      else o == Got(Pending(q)[0]) && Pending(q1) == Pending(q)[1..]
  {
    if q.buf != [] {
      assert Pending(q)[1..] == q.buf[1..] + Whats(q.senders);
      if q.senders != [] {
        assert q.buf[1..] + [q.senders[0].what] + Whats(q.senders[1..]) == q.buf[1..] + ([q.senders[0].what] + Whats(q.senders[1..]));
      }
    }
  }

  lemma {:induction false} WhatsAt(q: seq<Waiter<int>>)
    ensures |Whats(q)| == |q| && forall i :: 0 <= i < |q| ==> Whats(q)[i] == q[i].what
  {
    if q != [] { WhatsAt(q[1..]); }
  }

  /** Forced sending, which never blocks, is a put at the end of that queue, a full buffer having lost its oldest
      datum, exactly when no sender is blocked with another datum: the new datum gets ahead of those. */
  lemma ForcedSendIsPut(q: Dtq, data: int)
    requires Lawful(q) && q.cap > 0 && q.receivers == []
    ensures var (q1, o) := Next(q, Fsnd(data));
      && o == Done
      && (Pending(q1) == (if |q.buf| == q.cap then Pending(q)[1..] else Pending(q)) + [data]
          <==> forall i :: 0 <= i < |q.senders| ==> q.senders[i].what == data)
  {
    var ws, q1 := Whats(q.senders), Next(q, Fsnd(data)).0;
    WhatsAt(q.senders);
    if |q.buf| == q.cap {
      var front := q.buf[1..];
      assert Pending(q)[1..] + [data] == front + (ws + [data]);
      assert Pending(q1) == front + ([data] + ws);
      SameBehind(front, [data] + ws, ws + [data]);
      Rotates(ws, data);
    }
  }

  lemma SameBehind(a: seq<int>, b: seq<int>, c: seq<int>)
    ensures a + b == a + c <==> b == c
  {
    if a + b == a + c { assert b == (a + b)[|a|..] == (a + c)[|a|..] == c; }
  }

  lemma {:induction false} Rotates(ws: seq<int>, x: int)
    ensures [x] + ws == ws + [x] <==> forall i :: 0 <= i < |ws| ==> ws[i] == x
  {
    if [x] + ws == ws + [x] {
      forall i | 0 <= i < |ws| ensures ws[i] == x { Shifted(ws, x, i); }
    }
  }

  lemma {:induction false} Shifted(ws: seq<int>, x: int, i: nat)
    requires [x] + ws == ws + [x] && i < |ws|
    ensures ws[i] == x
  {
    assert ([x] + ws)[i] == (ws + [x])[i];
    if i > 0 { Shifted(ws, x, i - 1); }
  }

  /** A forced send that overtakes: with room for one datum, 1 is buffered, a sender waits with 2, and 3 is sent
      by force; what comes out is 3 and then 2. */
  lemma OvertakenSender() returns (q: Dtq, w: Waiter<int>)
    ensures Initial(q) && w.what == 2
    ensures Pending(Run(q, [Psnd(1), Snd(w)])) == [1, 2] && Pending(Run(q, [Psnd(1), Snd(w), Fsnd(3)])) == [3, 2]
  {
    q, w := Dtq(1, false, [], [], [], []), Waiter(0, 0, 2);
    var cs := [Psnd(1), Snd(w), Fsnd(3)];
    assert cs[..2] == [Psnd(1), Snd(w)] && cs[..2][..1] == [Psnd(1)] && cs[..2][..1][..0] == [];
    var q1 := Run(q, [Psnd(1)]);
    assert q1 == q.(buf := [1]);
    var q2 := Run(q, cs[..2]);
    assert q2 == q1.(senders := [w]);
    assert Whats([w]) == [2];
    assert Run(q, cs) == q2.(buf := [3]);
  }

  // ---------- first in, first out ----------

  /** What becomes of a datum that has entered: it is handed to a receiver, dropped from a buffer that holds
      `held` data, or cleared away. */
  datatype Fate = Delivered(data: int) | Dropped(data: int, held: nat) | Cleared(data: int)

  /** The data in the order they entered the buffer, or were handed over, and the fates of those that are
      there no more. */
  datatype Ledger = Ledger(entered: seq<int>, left: seq<Fate>)

  /** What the receiver released last has been given. */
  function Given(q: Dtq): int {
    if q.answers != [] && q.answers[|q.answers| - 1].Served? then q.answers[|q.answers| - 1].what else 0
  }

  function AllCleared(buf: seq<int>): seq<Fate> {
    if buf == [] then [] else [Cleared(buf[0])] + AllCleared(buf[1..])
  }

  function DataOf(left: seq<Fate>): (r: seq<int>)
    ensures |r| == |left| && forall i :: 0 <= i < |left| ==> r[i] == left[i].data
  {
    seq(|left|, i requires 0 <= i < |left| => left[i].data)
  }

  /** The entries that a call makes: of what a caller gets, and of what goes from waiting senders to the buffer. */
  function Note(q: Dtq, c: Call, l: Ledger): Ledger {
    var (q1, o) := Next(q, c);
    match c
    case Ini => l.(left := l.left + AllCleared(q.buf))
    case Rcv(_) => if o.Got? then Taken(q, o.data, l) else l
    case Prcv => if o.Got? then Taken(q, o.data, l) else l
    case Snd(w) => if o == Done then Sent(q, q1, w.what, l, []) else l
    case Psnd(data) => if o == Done then Sent(q, q1, data, l, []) else l
    case Fsnd(data) =>
      if o != Done then l
      else Sent(q, q1, data, l, if q.buf != [] && |q.buf| == q.cap then [Dropped(q.buf[0], |q.buf|)] else [])
    case _ => l
  }

  function Sent(q: Dtq, q1: Dtq, data: int, l: Ledger, dropped: seq<Fate>): Ledger {
    Ledger(l.entered + [data], l.left + (if q.receivers != [] then [Delivered(Given(q1))] else dropped))
  }

  function Taken(q: Dtq, data: int, l: Ledger): Ledger {
    Ledger(l.entered + (if q.senders != [] then [q.senders[0].what] else []), l.left + [Delivered(data)])
  }

  function LedgerOf(q: Dtq, cs: seq<Call>): Ledger
    decreases |cs|
  {
    if cs == [] then Ledger([], [])
    else Note(Run(q, cs[..|cs| - 1]), cs[|cs| - 1], LedgerOf(q, cs[..|cs| - 1]))
  }

  /** Data leave in the order they entered, and the buffer holds the rest; only a full buffer drops any. */
  ghost predicate Balanced(q: Dtq, l: Ledger) {
    DataOf(l.left) + q.buf == l.entered && forall x :: x in l.left && x.Dropped? ==> x.held == q.cap > 0
  }

  lemma {:induction false} AllClearedAt(buf: seq<int>)
    ensures DataOf(AllCleared(buf)) == buf && forall x :: x in AllCleared(buf) ==> x.Cleared?
  {
    if buf != [] {
      AllClearedAt(buf[1..]);
      assert DataOf(AllCleared(buf)) == [buf[0]] + DataOf(AllCleared(buf[1..]));
    }
  }

  lemma DataOfMore(a: seq<Fate>, b: seq<Fate>)
    ensures DataOf(a + b) == DataOf(a) + DataOf(b)
  {}

  lemma NextBalanced(q: Dtq, c: Call, l: Ledger)
    requires Lawful(q) && Balanced(q, l)
    ensures Balanced(Next(q, c).0, Note(q, c, l))
  {
    match c
    case Ini =>
      AllClearedAt(q.buf);
      DataOfMore(l.left, AllCleared(q.buf));
    case Rcv(_) => TakenBalanced(q, l);
    case Prcv => TakenBalanced(q, l);
    case Snd(w) => SentBalanced(q, w.what, l);
    case Psnd(data) => SentBalanced(q, data, l);
    case Fsnd(data) => ForcedBalanced(q, data, l);
    case _ =>
  }

  lemma SentBalanced(q: Dtq, data: int, l: Ledger)
    requires Lawful(q) && Balanced(q, l)
    ensures var (q1, ok) := SendData(q, data); ok ==> Balanced(q1, Sent(q, q1, data, l, []))
  {
    if q.receivers != [] { DataOfMore(l.left, [Delivered(data)]); }
  }

  lemma ForcedBalanced(q: Dtq, data: int, l: Ledger)
    requires Lawful(q) && Balanced(q, l)
    ensures Balanced(Next(q, Fsnd(data)).0, Note(q, Fsnd(data), l))
  {
    if q.receivers != [] {
      DataOfMore(l.left, [Delivered(data)]);
    } else if q.cap > 0 && |q.buf| == q.cap {
      DataOfMore(l.left, [Dropped(q.buf[0], |q.buf|)]);
      assert DataOf([Dropped(q.buf[0], |q.buf|)]) == [q.buf[0]];
      assert DataOf(l.left) + [q.buf[0]] + (q.buf[1..] + [data]) == DataOf(l.left) + q.buf + [data];
    }
  }

  lemma TakenBalanced(q: Dtq, l: Ledger)
    requires Lawful(q) && Balanced(q, l)
    ensures var (q1, o) := ReceiveData(q); if o.Got? then Balanced(q1, Taken(q, o.data, l)) else q1 == q
  {
    var (q1, o) := ReceiveData(q);
    if o.Got? {
      DataOfMore(l.left, [Delivered(o.data)]);
      assert DataOf([Delivered(o.data)]) == [o.data];
      if q.buf != [] {
        assert DataOf(l.left) + [q.buf[0]] + q.buf[1..] == DataOf(l.left) + q.buf;
        if q.senders != [] {
          var s := q.senders[0].what;
          assert DataOf(l.left) + [q.buf[0]] + (q.buf[1..] + [s]) == DataOf(l.left) + [q.buf[0]] + q.buf[1..] + [s];
        }
      }
    }
  }

  /** In every run of every call, on a queue by priority or by arrival: data leave in the order they entered.
      Forced sends drop data only from a full buffer, and then the oldest; nothing else is lost but by
      reinitialization. */
  lemma {:induction false} EveryDatumAccounted(q: Dtq, cs: seq<Call>)
    requires Initial(q)
    ensures Balanced(Run(q, cs), LedgerOf(q, cs))
    decreases |cs|
  {
    if cs != [] {
      var before := cs[..|cs| - 1];
      EveryDatumAccounted(q, before);
      AlwaysLawful(q, before);
      NextBalanced(Run(q, before), cs[|cs| - 1], LedgerOf(q, before));
    }
  }

  /** The data that went in and the data that came out, in the order of the calls; a datum handed to a waiting
      receiver goes in and comes out at once. */
  datatype Flow = Flow(put: seq<int>, got: seq<int>)

  function More(q: Dtq, c: Call, f: Flow): Flow {
    match c
    case Snd(w) => Flow(f.put + [w.what], if q.receivers != [] then f.got + [Given(Next(q, c).0)] else f.got)
    case Psnd(data) =>
      if Next(q, c).1 == Done then Flow(f.put + [data], if q.receivers != [] then f.got + [Given(Next(q, c).0)] else f.got) else f
    case Rcv(_) => if Next(q, c).1.Got? then f.(got := f.got + [Next(q, c).1.data]) else f
    case Prcv => if Next(q, c).1.Got? then f.(got := f.got + [Next(q, c).1.data]) else f
    case _ => f
  }

  function FlowOf(q: Dtq, cs: seq<Call>): Flow
    decreases |cs|
  {
    if cs == [] then Flow([], [])
    else More(Run(q, cs[..|cs| - 1]), cs[|cs| - 1], FlowOf(q, cs[..|cs| - 1]))
  }

  /** Sending and receiving, blocking or not. */
  predicate Plain(c: Call) { c.Snd? || c.Psnd? || c.Rcv? || c.Prcv? }

  lemma NextFlow(q: Dtq, c: Call, f: Flow)
    requires Lawful(q) && !q.tpri && Plain(c) && f.got + Pending(q) == f.put
    ensures More(q, c, f).got + Pending(Next(q, c).0) == More(q, c, f).put
  {
    match c
    case Snd(w) => PutFlow(q, w, f);
    case Psnd(data) =>
      var w := Waiter(0, 0, data);
      PutFlow(q, w, f);
      assert Next(q, c).1 == Done ==> Next(q, c).0 == Next(q, Snd(w)).0;
    case Rcv(_) => TakeFlow(q, f);
    case Prcv => TakeFlow(q, f);
  }

  lemma PutFlow(q: Dtq, w: Waiter<int>, f: Flow)
    requires Lawful(q) && !q.tpri && f.got + Pending(q) == f.put
    ensures More(q, Snd(w), f).got + Pending(Next(q, Snd(w)).0) == f.put + [w.what]
  {
    SendIsPut(q, w);
    assert f.got + (Pending(q) + [w.what]) == f.got + Pending(q) + [w.what];
  }

  lemma TakeFlow(q: Dtq, f: Flow)
    requires Lawful(q) && f.got + Pending(q) == f.put
    ensures var (q1, o) := ReceiveData(q);
      (if o.Got? then f.got + [o.data] else f.got) + Pending(q1) == f.put
  {
    TakeSame(q, f.got);
  }

  /** In every run of sending and receiving on a queue in order of arrival, what has come out, the buffered
      data and those of the blocked senders are what has gone in, in that order. */
  lemma {:induction false} FirstInFirstOut(q: Dtq, cs: seq<Call>)
    requires Initial(q) && !q.tpri && forall c :: c in cs ==> Plain(c)
    ensures FlowOf(q, cs).got + Pending(Run(q, cs)) == FlowOf(q, cs).put
    decreases |cs|
  {
    if cs != [] {
      var before := cs[..|cs| - 1];
      FirstInFirstOut(q, before);
      AlwaysLawful(q, before);
      NextFlow(Run(q, before), cs[|cs| - 1], FlowOf(q, before));
    }
  }

  // ---------- with timeouts, forced releases and reinitialization ----------

  /** The data `a` are among the data `b` in the same order; `at` says where. */
  ghost predicate Among(a: seq<int>, b: seq<int>, at: seq<nat>) {
    && |at| == |a| && (forall i :: 0 <= i < |a| ==> at[i] < |b| && a[i] == b[at[i]])
    && forall i, j :: 0 <= i < j < |a| ==> at[i] < at[j]
  }

  lemma OneLess(a: seq<int>, b: seq<int>, at: seq<nat>, k: nat)
    requires Among(a, b, at) && k < |a|
    ensures Among(a[..k] + a[k + 1..], b, at[..k] + at[k + 1..])
  {}

  /** What gives up is one of the waiting. */
  lemma {:induction false} WithdrawAt(q: seq<Waiter<int>>, t: nat) returns (k: nat)
    requires t in Tasks(q)
    ensures k < |q| && Withdraw(q, t) == q[..k] + q[k + 1..]
  {
    if q[0].task == t {
      k := 0;
    } else {
      var j := WithdrawAt(q[1..], t);
      k := j + 1;
      assert [q[0]] + (q[1..][..j] + q[1..][j + 1..]) == q[..k] + q[k + 1..];
    }
  }

  /** A sender that gives up takes its datum out of the pending ones. */
  lemma GiveUpTakesOne(q: Dtq, t: nat, er: Refusal) returns (k: nat)
    requires t in Tasks(q.senders)
    ensures k < |Pending(q)| && Pending(Next(q, GiveUpSending(t, er)).0) == Pending(q)[..k] + Pending(q)[k + 1..]
  {
    var j := WithdrawAt(q.senders, t);
    var rest := q.senders[..j] + q.senders[j + 1..];
    WhatsAt(q.senders);
    WhatsAt(rest);
    k := |q.buf| + j;
    assert Whats(rest) == Whats(q.senders)[..j] + Whats(q.senders)[j + 1..];
    assert q.buf + (Whats(q.senders)[..j] + Whats(q.senders)[j + 1..]) == Pending(q)[..k] + Pending(q)[k + 1..];
  }

  lemma NextAmong(q: Dtq, c: Call, f: Flow, at: seq<nat>) returns (at1: seq<nat>)
    requires Lawful(q) && !q.tpri && !c.Fsnd? && Among(f.got + Pending(q), f.put, at)
    ensures var f1 := More(q, c, f); Among(f1.got + Pending(Next(q, c).0), f1.put, at1)
  {
    at1 := at;
    match c
    case Snd(w) => at1 := PutAmong(q, w, f, at);
    case Psnd(data) =>
      if Next(q, c).1 == Done {
        at1 := PutAmong(q, Waiter(0, 0, data), f, at);
        assert Next(q, c).0 == Next(q, Snd(Waiter(0, 0, data))).0;
      }
    case Rcv(_) => TakeSame(q, f.got);
    case Prcv => TakeSame(q, f.got);
    case GiveUpSending(t, er) =>
      if t in Tasks(q.senders) { at1 := GiveUpAmong(q, t, er, f, at); }
    case GiveUpReceiving(_, _) =>
    case Ini =>
      at1 := at[..|f.got|];
      IniAmong(q, f, at);
  }

  lemma GiveUpAmong(q: Dtq, t: nat, er: Refusal, f: Flow, at: seq<nat>) returns (at1: seq<nat>)
    requires t in Tasks(q.senders) && Among(f.got + Pending(q), f.put, at)
    ensures Among(f.got + Pending(Next(q, GiveUpSending(t, er)).0), f.put, at1)
  {
    var k := GiveUpTakesOne(q, t, er);
    var n := |f.got| + k;
    OneLess(f.got + Pending(q), f.put, at, n);
    at1 := at[..n] + at[n + 1..];
    assert (f.got + Pending(q))[..n] + (f.got + Pending(q))[n + 1..] == f.got + (Pending(q)[..k] + Pending(q)[k + 1..]);
  }

  lemma IniAmong(q: Dtq, f: Flow, at: seq<nat>)
    requires Among(f.got + Pending(q), f.put, at)
    ensures Among(f.got + Pending(Next(q, Ini).0), f.put, at[..|f.got|])
  {
    assert f.got + Pending(Next(q, Ini).0) == f.got;
    assert forall i :: 0 <= i < |f.got| ==> (f.got + Pending(q))[i] == f.got[i];
  }

  lemma PutAmong(q: Dtq, w: Waiter<int>, f: Flow, at: seq<nat>) returns (at1: seq<nat>)
    requires Lawful(q) && !q.tpri && Among(f.got + Pending(q), f.put, at)
    ensures var f1 := More(q, Snd(w), f); Among(f1.got + Pending(Next(q, Snd(w)).0), f1.put, at1)
  {
    SendIsPut(q, w);
    at1 := at + [|f.put|];
    var f1 := More(q, Snd(w), f);
    assert f1.got + Pending(Next(q, Snd(w)).0) == f.got + Pending(q) + [w.what];
  }

  /** What is received goes from the pending data to those received. */
  lemma TakeSame(q: Dtq, got: seq<int>)
    requires Lawful(q)
    ensures var (q1, o) := ReceiveData(q);
      (if o.Got? then got + [o.data] else got) + Pending(q1) == got + Pending(q)
  {
    ReceiveIsTake(q);
    if Pending(q) != [] { assert got + [Pending(q)[0]] + Pending(q)[1..] == got + Pending(q); }
  }

  /** In every run without forced sends on a queue in order of arrival, whatever timeouts, forced releases and
      reinitializations there are: what has come out and what is pending is among what has gone in, in the
      order it went in. */
  lemma {:induction false} OrderSurvives(q: Dtq, cs: seq<Call>) returns (at: seq<nat>)
    requires Initial(q) && !q.tpri && forall c :: c in cs ==> !c.Fsnd?
    ensures Among(FlowOf(q, cs).got + Pending(Run(q, cs)), FlowOf(q, cs).put, at)
    decreases |cs|
  {
    at := [];
    if cs != [] {
      var before := cs[..|cs| - 1];
      at := OrderSurvives(q, before);
      AlwaysLawful(q, before);
      at := NextAmong(Run(q, before), cs[|cs| - 1], FlowOf(q, before), at);
    }
  }

  // ---------- every waiter is answered, once and in turn ----------

  /** How often a task is waiting, sending or receiving, or has been answered. */
  function Presence(q: Dtq, t: nat): nat {
    Times(t, Tasks(q.senders)) + Times(t, Tasks(q.receivers)) + Times(t, Answerees(q.answers))
  }

  /** The task that a call puts to sleep, if it does. */
  function Sleeper(c: Call, o: Outcome): seq<nat> {
    if o != Blocked then [] else match c { case Snd(w) => [w.task] case Rcv(r) => [r.task] case _ => [] }
  }

  lemma SendAnswers(q: Dtq, data: int, t: nat)
    ensures Presence(SendData(q, data).0, t) == Presence(q, t) && (q.cap > 0 ==> Presence(ForceSendData(q, data), t) == Presence(q, t))
  {
    if q.receivers != [] { AnsweredMore(t, q.answers, [Served(q.receivers[0].task, data)]); }
  }

  lemma ReceiveAnswers(q: Dtq, t: nat)
    ensures Presence(ReceiveData(q).0, t) == Presence(q, t)
  {
    if q.senders != [] { AnsweredMore<int>(t, q.answers, [Served(q.senders[0].task, 0)]); }
  }

  lemma IniAnswers(q: Dtq, t: nat)
    ensures Presence(Next(q, Ini).0, t) == Presence(q, t)
  {
    var a, b: seq<Answer<int>> := Refuse(q.senders, Deleted), Refuse(q.receivers, Deleted);
    RefuseAll<int, int>(q.senders, Deleted);
    RefuseAll<(), int>(q.receivers, Deleted);
    AnsweredMore(t, q.answers + a, b);
    AnsweredMore(t, q.answers, a);
  }

  lemma GiveUpSendingAnswers(q: Dtq, u: nat, er: Refusal, t: nat)
    ensures Presence(Next(q, GiveUpSending(u, er)).0, t) == Presence(q, t)
  {
    if u in Tasks(q.senders) {
      AnsweredMore(t, q.answers, [Refused(u, er)]);
      WithdrawTakes(t, q.senders, u);
    }
  }

  lemma GiveUpReceivingAnswers(q: Dtq, u: nat, er: Refusal, t: nat)
    ensures Presence(Next(q, GiveUpReceiving(u, er)).0, t) == Presence(q, t)
  {
    if u in Tasks(q.receivers) {
      AnsweredMore(t, q.answers, [Refused(u, er)]);
      WithdrawTakes(t, q.receivers, u);
    }
  }

  lemma NextAnswers(q: Dtq, c: Call, t: nat)
    ensures Presence(Next(q, c).0, t) == Presence(q, t) + Times(t, Sleeper(c, Next(q, c).1))
  {
    match c
    case Snd(w) =>
      SendAnswers(q, w.what, t);
      EnrollAdds(t, q.senders, w, q.tpri);
    case Psnd(data) => SendAnswers(q, data, t);
    case Fsnd(data) => SendAnswers(q, data, t);
    case Rcv(r) =>
      ReceiveAnswers(q, t);
      EnrollAdds(t, q.receivers, r, false);
    case Prcv => ReceiveAnswers(q, t);
    case GiveUpSending(u, er) => GiveUpSendingAnswers(q, u, er, t);
    case GiveUpReceiving(u, er) => GiveUpReceivingAnswers(q, u, er, t);
    case Ini => IniAnswers(q, t);
  }

  /** The tasks that calls have put to sleep, in the order of the calls. */
  function Slept(q: Dtq, cs: seq<Call>): seq<nat>
    decreases |cs|
  {
    if cs == [] then []
    else
      var r, c := Run(q, cs[..|cs| - 1]), cs[|cs| - 1];
      Slept(q, cs[..|cs| - 1]) + Sleeper(c, Next(r, c).1)
  }

  /** In every run of every call, a task has been put to sleep as often as it has been answered, and once more if it
      waits still: no wake-up is lost, and none is given twice. */
  lemma {:induction false} EveryoneAnsweredOnce(q: Dtq, cs: seq<Call>, t: nat)
    requires Initial(q) && q.answers == []
    ensures var r := Run(q, cs);
      Times(t, Slept(q, cs)) == Times(t, Tasks(r.senders)) + Times(t, Tasks(r.receivers)) + Times(t, Answerees(r.answers))
    decreases |cs|
  {
    if cs != [] {
      var r, c := Run(q, cs[..|cs| - 1]), cs[|cs| - 1];
      EveryoneAnsweredOnce(q, cs[..|cs| - 1], t);
      NextAnswers(r, c, t);
      TimesMore(t, Slept(q, cs[..|cs| - 1]), Sleeper(c, Next(r, c).1));
    }
  }

  /** Between `q` and `q1` the first of the waiting senders was answered `Served`, its datum having gone into the
      buffer or out, if something was received; the first of the waiting receivers if something was sent; and
      nobody else but with an error. */
  ghost predicate InTurn(q: Dtq, c: Call, q1: Dtq, o: Outcome) {
    q.answers <= q1.answers &&
    var news := q1.answers[|q.answers|..];
    if o.Got? then
      if q.senders == [] then news == [] && q1.senders == []
      else
        && news == [Served(q.senders[0].task, 0)] && q1.senders == q.senders[1..]
        && (if q.buf == [] then o.data == q.senders[0].what else q1.buf != [] && q1.buf[|q1.buf| - 1] == q.senders[0].what)
    else if o == Done && (c.Snd? || c.Psnd? || c.Fsnd?) && q.receivers != [] then
      && news == [Served(q.receivers[0].task, if c.Snd? then c.w.what else c.data)]
      && q1.receivers == q.receivers[1..] && q1.buf == q.buf && q1.senders == q.senders
    else
      forall i :: 0 <= i < |news| ==>
        news[i].Refused? && (c.Ini? ==> news[i].er == Deleted) && (!c.Ini? ==> (c.GiveUpSending? || c.GiveUpReceiving?) && news[i] == Refused(c.t, c.er))
  }

  /** In every run of every call, forced sends included, everybody is served in turn. */
  lemma ServedInTurn(q: Dtq, cs: seq<Call>, c: Call)
    requires Initial(q)
    ensures var r := Run(q, cs); InTurn(r, c, Next(r, c).0, Next(r, c).1)
  {
    var r := Run(q, cs);
    AlwaysLawful(q, cs);
    if c.Ini? {
      RefusedAt<int, int>(r.senders, Deleted);
      RefusedAt<(), int>(r.receivers, Deleted);
      Appended(r.answers, Refuse(r.senders, Deleted), Refuse(r.receivers, Deleted));
    }
  }

  lemma Appended(was: seq<Answer<int>>, a: seq<Answer<int>>, b: seq<Answer<int>>)
    ensures (was + a + b)[|was|..] == a + b
  {}
}
