/** Priority data queues as values: the buffered data in order of priority, the tasks blocked sending and the
    tasks blocked receiving. */
module PriorityDataQueueSpec {
  import opened Waiters

  /** A smaller number is a higher priority. */
  datatype Entry = Entry(data: int, datapri: int)

  datatype Pdq = Pdq(cap: nat, tpri: bool, buf: seq<Entry>, senders: seq<Waiter<Entry>>, receivers: seq<Waiter<()>>,
                     answers: seq<Answer<Entry>>)

  datatype Outcome = Done | Got(e: Entry) | Blocked | Tmout

  const NOTHING: Entry := Entry(0, 0)

  /** Behind all data of the same or a better priority. */
  function Insert(buf: seq<Entry>, x: Entry): seq<Entry> {
    if buf == [] || x.datapri < buf[0].datapri then [x] + buf else [buf[0]] + Insert(buf[1..], x)
  }

  ghost predicate Sorted(buf: seq<Entry>) {
    forall i, j :: 0 <= i < j < |buf| ==> buf[i].datapri <= buf[j].datapri
  }

  /** The place of a newcomer; the others keep their order. */
  lemma {:induction false} InsertPlace(buf: seq<Entry>, x: Entry) returns (k: nat)
    requires Sorted(buf)
    ensures k <= |buf| && Insert(buf, x) == buf[..k] + [x] + buf[k..]
    ensures forall i :: 0 <= i < k ==> buf[i].datapri <= x.datapri
    ensures forall i :: k <= i < |buf| ==> x.datapri < buf[i].datapri
  {
    if buf == [] || x.datapri < buf[0].datapri {
      k := 0;
      assert buf[..0] == [] && buf[0..] == buf;
    } else {
      var j := InsertPlace(buf[1..], x);
      k := j + 1;
      IntoRest(buf, x, j);
    }
  }

  lemma InsertSorted(buf: seq<Entry>, x: Entry)
    requires Sorted(buf)
    ensures Sorted(Insert(buf, x)) && |Insert(buf, x)| == |buf| + 1
  {
    var k := InsertPlace(buf, x);
    var r := Insert(buf, x);
    forall i, j | 0 <= i < j < |r| ensures r[i].datapri <= r[j].datapri {
      assert i < k ==> r[i] == buf[i];
      assert k < j ==> r[j] == buf[j - 1];
    }
  }

  /** Where a walk that passes everything of the same or a better priority stops, the newcomer goes in. */
  lemma {:induction false} InsertAt(buf: seq<Entry>, x: Entry, k: nat)
    requires k <= |buf| && forall i :: 0 <= i < k ==> buf[i].datapri <= x.datapri
    requires k < |buf| ==> x.datapri < buf[k].datapri
    ensures Insert(buf, x) == buf[..k] + [x] + buf[k..]
  {
    if k == 0 {
      assert buf[..0] == [] && buf[0..] == buf;
    } else {
      InsertAt(buf[1..], x, k - 1);
      IntoRest(buf, x, k - 1);
    }
  }

  // ---------- the operations ----------

  function Answered(q: Pdq, a: Answer<Entry>): Pdq { q.(answers := q.answers + [a]) }

  function SendPridata(q: Pdq, x: Entry): (Pdq, bool) {
    if q.receivers != [] then (Answered(q.(receivers := q.receivers[1..]), Served(q.receivers[0].task, x)), true)
    else if |q.buf| < q.cap then (q.(buf := Insert(q.buf, x)), true)
    else (q, false)
  }

  /** The best of the buffered data; the first sender's datum then takes the free place. */
  function ReceivePridata(q: Pdq): (Pdq, Outcome) {
    if q.buf != [] then
      if q.senders != [] then
        (Answered(q.(buf := Insert(q.buf[1..], q.senders[0].what), senders := q.senders[1..]), Served(q.senders[0].task, NOTHING)),
         Got(q.buf[0]))
      else (q.(buf := q.buf[1..]), Got(q.buf[0]))
    else if q.senders != [] then
      (Answered(q.(senders := q.senders[1..]), Served(q.senders[0].task, NOTHING)), Got(q.senders[0].what))
    else (q, Tmout)
  }

  datatype Call =
    | Snd(w: Waiter<Entry>) | Psnd(x: Entry) | Rcv(r: Waiter<()>) | Prcv
    | GiveUpSending(t: nat, er: Refusal) | GiveUpReceiving(t: nat, er: Refusal) | Ini

  function Next(q: Pdq, c: Call): (Pdq, Outcome) {
    match c
    case Snd(w) =>
      var (q1, ok) := SendPridata(q, w.what);
      if ok then (q1, Done) else (q.(senders := Enroll(q.senders, w, q.tpri)), Blocked)
    case Psnd(x) =>
      var (q1, ok) := SendPridata(q, x);
      if ok then (q1, Done) else (q, Tmout)
    case Rcv(r) =>
      var (q1, o) := ReceivePridata(q);
      if o.Got? then (q1, o) else (q.(receivers := Enroll(q.receivers, r, false)), Blocked)
    case Prcv => ReceivePridata(q)
    case GiveUpSending(t, er) =>
      (if t in Tasks(q.senders) then Answered(q.(senders := Withdraw(q.senders, t)), Refused(t, er)) else q, Done)
    case GiveUpReceiving(t, er) =>
      (if t in Tasks(q.receivers) then Answered(q.(receivers := Withdraw(q.receivers, t)), Refused(t, er)) else q, Done)
    case Ini =>
      (q.(buf := [], senders := [], receivers := [],
          answers := q.answers + Refuse(q.senders, Deleted) + Refuse(q.receivers, Deleted)), Done)
  }

  function Run(q: Pdq, cs: seq<Call>): Pdq
    decreases |cs|
  {
    if cs == [] then q else Next(Run(q, cs[..|cs| - 1]), cs[|cs| - 1]).0
  }

  predicate Initial(q: Pdq) { q.buf == [] && q.senders == [] && q.receivers == [] }

  // ---------- what holds in every run ----------

  /** The buffered data are in order of priority and no more than there is room for; senders wait only for a
      full buffer, receivers only for an empty one. */
  ghost predicate Lawful(q: Pdq) {
    && |q.buf| <= q.cap && Sorted(q.buf)
    && (q.senders != [] ==> |q.buf| == q.cap)
    && (q.receivers != [] ==> q.buf == [] && q.senders == [])
  }

  lemma SendLawful(q: Pdq, x: Entry)
    requires Lawful(q)
    ensures var (q1, ok) := SendPridata(q, x); Lawful(q1) && (!ok ==> |q.buf| == q.cap && q.receivers == [])
  {
    InsertSorted(q.buf, x);
  }

  lemma ReceiveLawful(q: Pdq)
    requires Lawful(q)
    ensures var (q1, o) := ReceivePridata(q); Lawful(q1) && (!o.Got? ==> q.buf == [] && q.senders == [])
  {
    if q.buf != [] && q.senders != [] { InsertSorted(q.buf[1..], q.senders[0].what); }
  }

  lemma NextLawful(q: Pdq, c: Call)
    requires Lawful(q)
    ensures Lawful(Next(q, c).0)
  {
    match c
    case Snd(w) =>
      SendLawful(q, w.what);
      EnrollNotEmpty(q.senders, w, q.tpri);
    case Psnd(x) => SendLawful(q, x);
    case Rcv(r) =>
      ReceiveLawful(q);
      EnrollNotEmpty(q.receivers, r, false);
    case Prcv => ReceiveLawful(q);
    case GiveUpSending(t, _) => WithdrawSubset(q.senders, t);
    case GiveUpReceiving(t, _) => WithdrawSubset(q.receivers, t);
    case Ini =>
  }

  lemma {:induction false} AlwaysLawful(q: Pdq, cs: seq<Call>)
    requires Initial(q)
    ensures Lawful(Run(q, cs)) && Run(q, cs).cap == q.cap
    decreases |cs|
  {
    if cs != [] {
      AlwaysLawful(q, cs[..|cs| - 1]);
      NextLawful(Run(q, cs[..|cs| - 1]), cs[|cs| - 1]);
    }
  }

  // ---------- a stable priority queue ----------

  /** Of a list of data in order of arrival, the first one of the best priority there is. */
  function BestIndex(h: seq<Entry>): (k: nat)
    requires h != []
    ensures k < |h| && (forall i :: 0 <= i < |h| ==> h[k].datapri <= h[i].datapri)
    ensures forall i :: 0 <= i < k ==> h[k].datapri < h[i].datapri
  {
    var n := |h| - 1;
    if n == 0 then 0
    else
      var k := BestIndex(h[..n]);
      if h[n].datapri < h[k].datapri then n else k
  }

  function WithoutAt(h: seq<Entry>, k: nat): seq<Entry>
    requires k < |h|
  {
    h[..k] + h[k + 1..]
  }

  /** The buffered data in order of arrival, as calls bring them in and take them out: what is received is the
      oldest of the best. */
  function NextArrivals(q: Pdq, c: Call, h: seq<Entry>): seq<Entry> {
    var (_, o) := Next(q, c);
    match c
    case Snd(w) => if o == Done && q.receivers == [] then h + [w.what] else h
    case Psnd(x) => if o == Done && q.receivers == [] then h + [x] else h
    case Rcv(_) => if o.Got? then Taken(q, h) else h
    case Prcv => if o.Got? then Taken(q, h) else h
    case Ini => []
    case _ => h
  }

  /** A free place is taken by the datum of the first sender, which arrives only then. Without any place, the
      datum goes from hand to hand. */
  function Taken(q: Pdq, h: seq<Entry>): seq<Entry> {
    if h == [] then h
    else WithoutAt(h, BestIndex(h)) + (if q.senders != [] then [q.senders[0].what] else [])
  }

  function Arrivals(q: Pdq, cs: seq<Call>): seq<Entry>
    decreases |cs|
  {
    if cs == [] then []
    else NextArrivals(Run(q, cs[..|cs| - 1]), cs[|cs| - 1], Arrivals(q, cs[..|cs| - 1]))
  }

  /** The list that comes of inserting data one after the other. */
  function Inserted(h: seq<Entry>): (r: seq<Entry>)
    ensures |r| == |h|
  {
    if h == [] then []
    else
      InsertSize(Inserted(h[..|h| - 1]), h[|h| - 1]);
      Insert(Inserted(h[..|h| - 1]), h[|h| - 1])
  }

  lemma {:induction false} InsertSize(buf: seq<Entry>, x: Entry)
    ensures |Insert(buf, x)| == |buf| + 1 && multiset(Insert(buf, x)) == multiset(buf) + multiset{x}
  {
    if buf != [] && !(x.datapri < buf[0].datapri) {
      InsertSize(buf[1..], x);
      assert buf == [buf[0]] + buf[1..];
    }
  }

  lemma InsertedMore(h: seq<Entry>, x: Entry)
    ensures Inserted(h + [x]) == Insert(Inserted(h), x)
  {
    assert (h + [x])[..|h|] == h;
  }

  lemma {:induction false} InsertedSame(h: seq<Entry>)
    ensures multiset(Inserted(h)) == multiset(h)
  {
    if h != [] {
      InsertedSame(h[..|h| - 1]);
      InsertSize(Inserted(h[..|h| - 1]), h[|h| - 1]);
      assert h == h[..|h| - 1] + [h[|h| - 1]];
    }
  }

  lemma BestOfMore(g: seq<Entry>, x: Entry)
    requires g != []
    ensures BestIndex(g + [x]) == if x.datapri < g[BestIndex(g)].datapri then |g| else BestIndex(g)
  {
    assert (g + [x])[..|g|] == g;
  }

  /** Its first is the oldest of the best, and the rest is what comes of inserting the others. */
  lemma {:induction false} BestComesFirst(h: seq<Entry>)
    requires h != []
    ensures Inserted(h)[0] == h[BestIndex(h)] && Inserted(h)[1..] == Inserted(WithoutAt(h, BestIndex(h)))
  {
    var n := |h| - 1;
    var g, x := h[..n], h[n];
    assert h == g + [x];
    if n == 0 {
      assert g == [] && WithoutAt(h, 0) == [];
    } else {
      BestComesFirst(g);
      BestOfMore(g, x);
      StillFirst(g, x, Inserted(g), BestIndex(g));
    }
  }

  lemma StillFirst(g: seq<Entry>, x: Entry, r: seq<Entry>, k: nat)
    requires k < |g| && r == Inserted(g) && r[0] == g[k] && r[1..] == Inserted(WithoutAt(g, k))
    ensures var k1 := if x.datapri < g[k].datapri then |g| else k;
      Inserted(g + [x])[0] == (g + [x])[k1] && Inserted(g + [x])[1..] == Inserted(WithoutAt(g + [x], k1))
  {
    InsertedMore(g, x);
    if x.datapri < g[k].datapri {
      assert WithoutAt(g + [x], |g|) == g;
    } else {
      assert WithoutAt(g + [x], k) == WithoutAt(g, k) + [x];
      InsertedMore(WithoutAt(g, k), x);
    }
  }

  lemma NextInserted(q: Pdq, c: Call, h: seq<Entry>)
    requires q.buf == Inserted(h)
    ensures Next(q, c).0.buf == Inserted(NextArrivals(q, c, h))
  {
    match c
    case Snd(w) => InsertedMore(h, w.what);
    case Psnd(x) => InsertedMore(h, x);
    case Rcv(_) => TakenInserted(q, h);
    case Prcv => TakenInserted(q, h);
    case _ =>
  }

  lemma TakenInserted(q: Pdq, h: seq<Entry>)
    requires q.buf == Inserted(h)
    ensures var (q1, o) := ReceivePridata(q); q1.buf == if o.Got? then Inserted(Taken(q, h)) else q.buf
  {
    if h != [] {
      BestComesFirst(h);
      var r := WithoutAt(h, BestIndex(h));
      if q.senders != [] { InsertedMore(r, q.senders[0].what); } else { assert r + [] == r; }
    }
  }

  lemma {:induction false} AlwaysInserted(q: Pdq, cs: seq<Call>)
    requires Initial(q)
    ensures Run(q, cs).buf == Inserted(Arrivals(q, cs))
    decreases |cs|
  {
    if cs != [] {
      AlwaysInserted(q, cs[..|cs| - 1]);
      NextInserted(Run(q, cs[..|cs| - 1]), cs[|cs| - 1], Arrivals(q, cs[..|cs| - 1]));
    }
  }

  /** In every run, what is received from the buffer is the oldest of the best: of the data that are there, in
      the order they arrived, none has a better priority, and all that arrived earlier have a worse one. */
  lemma OldestOfTheBest(q: Pdq, cs: seq<Call>, c: Call)
    requires Initial(q) && Run(q, cs).buf != [] && (c.Rcv? || c.Prcv?)
    ensures var h := Arrivals(q, cs);
      h != [] && multiset(h) == multiset(Run(q, cs).buf)
      && var k := BestIndex(h);
      && Next(Run(q, cs), c).1 == Got(h[k])
      && (forall i :: 0 <= i < |h| ==> h[k].datapri <= h[i].datapri)
      && (forall i :: 0 <= i < k ==> h[k].datapri < h[i].datapri)
  {
    var h := Arrivals(q, cs);
    AlwaysInserted(q, cs);
    InsertedSame(h);
    BestComesFirst(h);
  }

  // ---------- every waiter is answered, once and in turn ----------

  /** How often a task is waiting, sending or receiving, or has been answered. */
  function Presence(q: Pdq, t: nat): nat {
    Times(t, Tasks(q.senders)) + Times(t, Tasks(q.receivers)) + Times(t, Answerees(q.answers))
  }

  /** The task that a call puts to sleep, if it does. */
  function Sleeper(c: Call, o: Outcome): seq<nat> {
    if o != Blocked then [] else match c { case Snd(w) => [w.task] case Rcv(r) => [r.task] case _ => [] }
  }

  lemma SendAnswers(q: Pdq, x: Entry, t: nat)
    ensures Presence(SendPridata(q, x).0, t) == Presence(q, t)
  {
    if q.receivers != [] { AnsweredMore(t, q.answers, [Served(q.receivers[0].task, x)]); }
  }

  lemma ReceiveAnswers(q: Pdq, t: nat)
    ensures Presence(ReceivePridata(q).0, t) == Presence(q, t)
  {
    if q.senders != [] { AnsweredMore<Entry>(t, q.answers, [Served(q.senders[0].task, NOTHING)]); }
  }

  lemma IniAnswers(q: Pdq, t: nat)
    ensures Presence(Next(q, Ini).0, t) == Presence(q, t)
  {
    var a, b: seq<Answer<Entry>> := Refuse(q.senders, Deleted), Refuse(q.receivers, Deleted);
    RefuseAll<Entry, Entry>(q.senders, Deleted);
    RefuseAll<(), Entry>(q.receivers, Deleted);
    AnsweredMore(t, q.answers + a, b);
    AnsweredMore(t, q.answers, a);
  }

  lemma GiveUpSendingAnswers(q: Pdq, u: nat, er: Refusal, t: nat)
    ensures Presence(Next(q, GiveUpSending(u, er)).0, t) == Presence(q, t)
  {
    if u in Tasks(q.senders) {
      AnsweredMore(t, q.answers, [Refused(u, er)]);
      WithdrawTakes(t, q.senders, u);
    }
  }

  lemma GiveUpReceivingAnswers(q: Pdq, u: nat, er: Refusal, t: nat)
    ensures Presence(Next(q, GiveUpReceiving(u, er)).0, t) == Presence(q, t)
  {
    if u in Tasks(q.receivers) {
      AnsweredMore(t, q.answers, [Refused(u, er)]);
      WithdrawTakes(t, q.receivers, u);
    }
  }

  lemma NextAnswers(q: Pdq, c: Call, t: nat)
    ensures Presence(Next(q, c).0, t) == Presence(q, t) + Times(t, Sleeper(c, Next(q, c).1))
  {
    match c
    case Snd(w) =>
      SendAnswers(q, w.what, t);
      EnrollAdds(t, q.senders, w, q.tpri);
    case Psnd(x) => SendAnswers(q, x, t);
    case Rcv(r) =>
      ReceiveAnswers(q, t);
      EnrollAdds(t, q.receivers, r, false);
    case Prcv => ReceiveAnswers(q, t);
    case GiveUpSending(u, er) => GiveUpSendingAnswers(q, u, er, t);
    case GiveUpReceiving(u, er) => GiveUpReceivingAnswers(q, u, er, t);
    case Ini => IniAnswers(q, t);
  }

  /** The tasks that calls have put to sleep, in the order of the calls. */
  function Slept(q: Pdq, cs: seq<Call>): seq<nat>
    decreases |cs|
  {
    if cs == [] then []
    else
      var r, c := Run(q, cs[..|cs| - 1]), cs[|cs| - 1];
      Slept(q, cs[..|cs| - 1]) + Sleeper(c, Next(r, c).1)
  }

  /** In every run of every call, a task has been put to sleep as often as it has been answered, and once more if it
      waits still: no wake-up is lost, and none is given twice. */
  lemma {:induction false} EveryoneAnsweredOnce(q: Pdq, cs: seq<Call>, t: nat)
    requires Initial(q) && q.answers == []
    ensures var r := Run(q, cs);
      Times(t, Slept(q, cs)) == Times(t, Tasks(r.senders)) + Times(t, Tasks(r.receivers)) + Times(t, Answerees(r.answers))
    decreases |cs|
  {
    if cs != [] {
      var r, c := Run(q, cs[..|cs| - 1]), cs[|cs| - 1];
      EveryoneAnsweredOnce(q, cs[..|cs| - 1], t);
      NextAnswers(r, c, t);
      TimesMore(t, Slept(q, cs[..|cs| - 1]), Sleeper(c, Next(r, c).1));
    }
  }

  /** Between `q` and `q1` the first of the waiting senders was answered `Served`, its datum having taken the place that
      became free, or gone out, if something was received; the first of the waiting receivers if something was
      sent; and nobody else but with an error. */
  ghost predicate InTurn(q: Pdq, c: Call, q1: Pdq, o: Outcome) {
    q.answers <= q1.answers &&
    var news := q1.answers[|q.answers|..];
    if o.Got? then
      if q.senders == [] then news == [] && q1.senders == [] && multiset(q1.buf) + multiset{o.e} == multiset(q.buf)
      else
        && news == [Served(q.senders[0].task, NOTHING)] && q1.senders == q.senders[1..]
        && multiset(q1.buf) + multiset{o.e} == multiset(q.buf) + multiset{q.senders[0].what}
    else if o == Done && (c.Snd? || c.Psnd?) && q.receivers != [] then
      && news == [Served(q.receivers[0].task, if c.Snd? then c.w.what else c.x)]
      && q1.receivers == q.receivers[1..] && q1.buf == q.buf && q1.senders == q.senders
    else
      forall i :: 0 <= i < |news| ==>
        news[i].Refused? && (c.Ini? ==> news[i].er == Deleted) && (!c.Ini? ==> (c.GiveUpSending? || c.GiveUpReceiving?) && news[i] == Refused(c.t, c.er))
  }

  lemma ReceiveInTurn(q: Pdq, c: Call)
    requires c.Prcv? || c.Rcv?
    ensures InTurn(q, c, Next(q, c).0, Next(q, c).1)
  {
    if q.buf != [] {
      assert q.buf == [q.buf[0]] + q.buf[1..];
      if q.senders != [] { InsertSize(q.buf[1..], q.senders[0].what); }
    }
  }

  /** In every run of every call, everybody is served in turn. */
  lemma ServedInTurn(q: Pdq, cs: seq<Call>, c: Call)
    requires Initial(q)
    ensures var r := Run(q, cs); InTurn(r, c, Next(r, c).0, Next(r, c).1)
  {
    var r := Run(q, cs);
    AlwaysLawful(q, cs);
    if c.Ini? {
      RefusedAt<Entry, Entry>(r.senders, Deleted);
      RefusedAt<(), Entry>(r.receivers, Deleted);
      Appended(r.answers, Refuse(r.senders, Deleted), Refuse(r.receivers, Deleted));
    } else if c.Rcv? || c.Prcv? {
      ReceiveInTurn(r, c);
    }
  }

  lemma Appended(was: seq<Answer<Entry>>, a: seq<Answer<Entry>>, b: seq<Answer<Entry>>)
    ensures (was + a + b)[|was|..] == a + b
  {}
}
