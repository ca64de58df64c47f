/** Priority data queues on their nodes: two linked lists, of the data and of the nodes given back, and a part
    not used yet. */
module PriorityDataQueue {
  import opened Waiters
  import opened PriorityDataQueueSpec

  datatype Option<+T> = None | Some(value: T)

  datatype Pdqmb = Pdqmb(next: Option<nat>, data: int, datapri: int)

  /** The nodes that the list from `head` on runs through. */
  ghost predicate Listed(nodes: seq<Pdqmb>, head: Option<nat>, list: seq<nat>)
    decreases |list|
  {
    if list == [] then head == None
    else head == Some(list[0]) && list[0] < |nodes| && Listed(nodes, nodes[list[0]].next, list[1..])
  }

  function Contents(nodes: seq<Pdqmb>, list: seq<nat>): (r: seq<Entry>)
    requires Below(list, |nodes|)
    ensures |r| == |list| && forall i :: 0 <= i < |list| ==> r[i] == Entry(nodes[list[i]].data, nodes[list[i]].datapri)
  {
    if list == [] then [] else [Entry(nodes[list[0]].data, nodes[list[0]].datapri)] + Contents(nodes, list[1..])
  }

  predicate Below(list: seq<nat>, n: nat) { forall i :: 0 <= i < |list| ==> list[i] < n }

  predicate Distinct(q: seq<nat>) { forall i, j :: 0 <= i < j < |q| ==> q[i] != q[j] }

  lemma {:induction false} ListedBelow(nodes: seq<Pdqmb>, head: Option<nat>, list: seq<nat>)
    requires Listed(nodes, head, list)
    ensures Below(list, |nodes|)
    decreases |list|
  {
    if list != [] { ListedBelow(nodes, nodes[list[0]].next, list[1..]); }
  }

  /** A node outside a list does not matter to it. */
  lemma {:induction false} ListedFrame(nodes: seq<Pdqmb>, head: Option<nat>, list: seq<nat>, n: nat, x: Pdqmb)
    requires Listed(nodes, head, list) && n < |nodes| && n !in list
    ensures Listed(nodes[n := x], head, list)
    decreases |list|
  {
    if list != [] { ListedFrame(nodes, nodes[list[0]].next, list[1..], n, x); }
  }

  /** The links of a list, one after the other. */
  lemma {:induction false} LinkAt(nodes: seq<Pdqmb>, head: Option<nat>, list: seq<nat>, k: nat)
    requires Listed(nodes, head, list) && k < |list|
    ensures list[k] < |nodes| && nodes[list[k]].next == if k + 1 < |list| then Some(list[k + 1]) else None
    decreases |list|
  {
    if k > 0 { LinkAt(nodes, nodes[list[0]].next, list[1..], k - 1); }
  }

  /** A node `n` is put in behind the first `k`: the link that led past it leads to it. */
  lemma {:induction false} Spliced(nodes: seq<Pdqmb>, head: Option<nat>, list: seq<nat>, n: nat, k: nat)
    requires Listed(nodes, head, list) && n < |nodes| && n !in list && Distinct(list) && k <= |list|
    requires nodes[n].next == if k < |list| then Some(list[k]) else None
    ensures k == 0 ==> Listed(nodes, Some(n), [n] + list)
    ensures k > 0 ==> list[k - 1] < |nodes|
    ensures k > 0 ==> Listed(nodes[list[k - 1] := nodes[list[k - 1]].(next := Some(n))], head, list[..k] + [n] + list[k..])
    decreases |list|
  {
    if k == 0 {
      assert ([n] + list)[1..] == list;
    } else {
      var m := list[0];
      var rest := list[1..];
      assert Distinct(rest);
      Spliced(nodes, nodes[m].next, rest, n, k - 1);
      LinkAt(nodes, head, list, k - 1);
      var p := list[k - 1];
      var nodes1 := nodes[p := nodes[p].(next := Some(n))];
      var list1 := list[..k] + [n] + list[k..];
      if k == 1 {
        assert list1[1..] == [n] + rest;
        assert m !in [n] + rest;
        ListedFrame(nodes, Some(n), [n] + rest, m, nodes1[m]);
      } else {
        assert rest[k - 2] == p && m != p;
        assert list1[1..] == rest[..k-1] + [n] + rest[k-1..];
      }
    }
  }

  lemma SplicedContents(nodes: seq<Pdqmb>, nodes1: seq<Pdqmb>, list: seq<nat>, n: nat, k: nat, x: Entry)
    requires |nodes1| == |nodes| && Below(list, |nodes|) && n < |nodes| && k <= |list| && n !in list
    requires nodes1[n].data == x.data && nodes1[n].datapri == x.datapri
    requires forall i :: 0 <= i < |nodes| && i != n ==> nodes1[i].data == nodes[i].data && nodes1[i].datapri == nodes[i].datapri
    ensures Below(list[..k] + [n] + list[k..], |nodes1|)
    ensures Contents(nodes1, list[..k] + [n] + list[k..]) == Contents(nodes, list)[..k] + [x] + Contents(nodes, list)[k..]
  {
    var list1, buf := list[..k] + [n] + list[k..], Contents(nodes, list);
    var r := Contents(nodes1, list1);
    forall i | 0 <= i < |r| ensures r[i] == (buf[..k] + [x] + buf[k..])[i] {
      if i < k { assert list1[i] == list[i]; } else if i > k { assert list1[i] == list[i - 1]; }
    }
  }

  class PriorityDataQueue {
    const pdqcnt: nat
    const tpri: bool
    const pdqmb: array<Pdqmb>
    var count: nat
    var head: Option<nat>
    var unused: nat
    var freelist: Option<nat>
    var swaitQueue: seq<Waiter<Entry>>
    var rwaitQueue: seq<Waiter<()>>
    var answers: seq<Answer<Entry>>

    /** The nodes of the data, and the nodes given back. */
    ghost var live: seq<nat>
    ghost var free: seq<nat>

    /** The two lists share no node, and together they are the nodes below `unused`. */
    ghost predicate Valid()
      reads this, pdqmb
    {
      && pdqmb.Length == pdqcnt && unused <= pdqcnt && count == |live| <= pdqcnt
      && Listed(pdqmb[..], head, live) && Listed(pdqmb[..], freelist, free)
      && Distinct(live) && Distinct(free)
      && (forall x: nat :: x in live ==> x !in free)
      && (forall x: nat :: x < unused <==> x in live || x in free)
    }

    ghost function Buffered(): seq<Entry>
      requires Valid()
      reads this, pdqmb
    {
      ListedBelow(pdqmb[..], head, live);
      Contents(pdqmb[..], live)
    }

    ghost function State(): Pdq
      requires Valid()
      reads this, pdqmb
    {
      Pdq(pdqcnt, tpri, Buffered(), swaitQueue, rwaitQueue, answers)
    }

    constructor (cnt: nat, byPriority: bool)
      ensures Valid() && State() == Pdq(cnt, byPriority, [], [], [], []) && fresh(pdqmb)
    {
      pdqcnt, tpri := cnt, byPriority;
      pdqmb := new Pdqmb[cnt](_ => Pdqmb(None, 0, 0));
      count, head, unused, freelist := 0, None, 0, None;
      swaitQueue, rwaitQueue, answers, live, free := [], [], [], [], [];
    }

    /** A node for a new datum: one given back, or the next one not used yet. */
    method TakeNode() returns (n: nat)
      requires Valid() && count < pdqcnt
      modifies `freelist, `free, `unused
      ensures n < pdqcnt && n < unused <= pdqcnt && n !in live && n !in free
      ensures Listed(pdqmb[..], head, live) && Listed(pdqmb[..], freelist, free) && Distinct(live) && Distinct(free)
      ensures (forall x: nat :: x in live ==> x !in free) && forall x: nat :: x < unused <==> x == n || x in live || x in free
    {
      if freelist != None {
        n := freelist.value;
        assert free == [free[0]] + free[1..];
        freelist := pdqmb[n].next;
        free := free[1..];
      } else {
        Used(live, unused);
        n := unused;
        unused := unused + 1;
      }
    }

    /** As many different nodes below `n` as there are numbers below `n` leave none out. */
    lemma Used(list: seq<nat>, n: nat)
      requires Distinct(list) && forall x: nat :: x < n <==> x in list
      ensures |list| == n
    {
      MembersSize(list);
      assert Numbers(n) == Members(list);
    }

    method EnqueuePridata(x: Entry)
      requires Valid() && count < pdqcnt
      modifies `head, `count, `unused, `freelist, `live, `free, pdqmb
      ensures Valid() && Buffered() == Insert(old(Buffered()), x)
    {
      var n := TakeNode();
      PutIn(n, x);
      count := count + 1;
    }

    /** The datum goes into node `n`, and the node into the list. */
    method PutIn(n: nat, x: Entry)
      requires n < pdqmb.Length && n !in live && n !in free && (forall y: nat :: y in live ==> y !in free)
      requires Listed(pdqmb[..], head, live) && Listed(pdqmb[..], freelist, free) && Distinct(live) && Distinct(free)
      modifies `head, `live, pdqmb
      ensures Listed(pdqmb[..], head, live) && Listed(pdqmb[..], freelist, free) && Distinct(live) && |live| == |old(live)| + 1
      ensures forall y: nat :: y in live <==> y == n || y in old(live)
      ensures Below(old(live), pdqmb.Length) && Below(live, pdqmb.Length)
      ensures Contents(pdqmb[..], live) == Insert(Contents(old(pdqmb[..]), old(live)), x)
    {
      ListedBelow(pdqmb[..], head, live);
      ghost var buf, was, nodes0 := Contents(pdqmb[..], live), live, pdqmb[..];
      Fill(n, x);
      var prev, next, k := FindPlace(x, buf);
      InsertAt(buf, x, k);
      Splice(n, prev, next, k);
      ListedBelow(pdqmb[..], head, live);
      SplicedContents(nodes0, pdqmb[..], was, n, k, x);
    }

    method Fill(n: nat, x: Entry)
      requires n < pdqmb.Length && n !in live && n !in free
      requires Listed(pdqmb[..], head, live) && Listed(pdqmb[..], freelist, free)
      modifies pdqmb
      ensures Listed(pdqmb[..], head, live) && Listed(pdqmb[..], freelist, free)
      ensures pdqmb[n].data == x.data && pdqmb[n].datapri == x.datapri
      ensures forall i :: 0 <= i < pdqmb.Length && i != n ==> pdqmb[i] == old(pdqmb[i])
    {
      ghost var nodes0, y := pdqmb[..], pdqmb[n].(data := x.data, datapri := x.datapri);
      ListedFrame(nodes0, head, live, n, y);
      ListedFrame(nodes0, freelist, free, n, y);
      pdqmb[n] := pdqmb[n].(data := x.data, datapri := x.datapri);
      assert pdqmb[..] == nodes0[n := y];
    }

    /** The walk along the links to the first datum of lower priority; `prev` is the node whose link leads
        there, or none for `head`. */
    method FindPlace(x: Entry, ghost buf: seq<Entry>) returns (prev: Option<nat>, next: Option<nat>, ghost k: nat)
      requires Listed(pdqmb[..], head, live) && Below(live, pdqmb.Length) && buf == Contents(pdqmb[..], live)
      ensures k <= |live| && prev == (if k == 0 then None else Some(live[k - 1])) && next == (if k < |live| then Some(live[k]) else None)
      ensures forall i :: 0 <= i < k ==> buf[i].datapri <= x.datapri
      ensures k < |live| ==> x.datapri < buf[k].datapri
    {
      prev, next, k := None, head, 0;
      while next != None
        invariant k <= |live| && prev == (if k == 0 then None else Some(live[k - 1]))
        invariant next == if k < |live| then Some(live[k]) else None
        invariant forall i :: 0 <= i < k ==> buf[i].datapri <= x.datapri
        decreases |live| - k
      {
        LinkAt(pdqmb[..], head, live, k);
        if pdqmb[next.value].datapri > x.datapri {
          break;
        }
        prev := next;
        next := pdqmb[next.value].next;
        k := k + 1;
      }
    }

    /** The two links that put node `n` into the list of data. */
    method Splice(n: nat, prev: Option<nat>, next: Option<nat>, ghost k: nat)
      requires n < pdqmb.Length && n !in live && n !in free && k <= |live|
      requires Listed(pdqmb[..], head, live) && Listed(pdqmb[..], freelist, free) && Distinct(live) && Distinct(free)
      requires forall x: nat :: x in live ==> x !in free
      requires prev == (if k == 0 then None else Some(live[k - 1])) && next == (if k < |live| then Some(live[k]) else None)
      modifies `head, `live, pdqmb
      ensures live == old(live)[..k] + [n] + old(live)[k..] && Distinct(live) && |live| == |old(live)| + 1
      ensures forall y: nat :: y in live <==> y == n || y in old(live)
      ensures Listed(pdqmb[..], head, live) && Listed(pdqmb[..], freelist, free)
      ensures forall i :: 0 <= i < pdqmb.Length ==> pdqmb[i].data == old(pdqmb[i].data) && pdqmb[i].datapri == old(pdqmb[i].datapri)
    {
      ghost var nodes0 := pdqmb[..];
      ListedFrame(nodes0, head, live, n, nodes0[n].(next := next));
      ListedFrame(nodes0, freelist, free, n, nodes0[n].(next := next));
      pdqmb[n] := pdqmb[n].(next := next);
      ghost var nodes1 := pdqmb[..];
      assert nodes1 == nodes0[n := nodes0[n].(next := next)];
      Spliced(nodes1, head, live, n, k);
      if prev == None {
        head := Some(n);
        assert [n] + live == live[..k] + [n] + live[k..];
      } else {
        ListedFrame(nodes1, freelist, free, prev.value, nodes1[prev.value].(next := Some(n)));
        pdqmb[prev.value] := pdqmb[prev.value].(next := Some(n));
        assert pdqmb[..] == nodes1[prev.value := nodes1[prev.value].(next := Some(n))];
      }
      SplicedDistinct(live, n, k);
      live := live[..k] + [n] + live[k..];
    }

    lemma SplicedDistinct(list: seq<nat>, n: nat, k: nat)
      requires Distinct(list) && n !in list && k <= |list|
      ensures var r := list[..k] + [n] + list[k..];
        Distinct(r) && |r| == |list| + 1 && forall y: nat :: y in r <==> y == n || y in list
    {
      assert list == list[..k] + list[k..];
    }

    method DequeuePridata() returns (x: Entry)
      requires Valid() && count > 0
      modifies `head, `count, `freelist, `live, `free, pdqmb
      ensures Valid() && x == old(Buffered())[0] && Buffered() == old(Buffered())[1..]
    {
      ListedBelow(pdqmb[..], head, live);
      ghost var nodes0 := pdqmb[..];
      var n := head.value;
      FirstAndRest(live);
      assert Contents(nodes0, live)[1..] == Contents(nodes0, live[1..]);
      head := pdqmb[n].next;
      count := count - 1;
      x := Entry(pdqmb[n].data, pdqmb[n].datapri);
      live := live[1..];
      GiveNode(n);
      SameContents(nodes0, pdqmb[..], live);
    }

    /** A node that is in neither list goes to the front of those given back. */
    method GiveNode(n: nat)
      requires n < pdqmb.Length && n !in live && n !in free && Distinct(free)
      requires Listed(pdqmb[..], head, live) && Listed(pdqmb[..], freelist, free)
      modifies `freelist, `free, pdqmb
      ensures Listed(pdqmb[..], head, live) && Listed(pdqmb[..], freelist, free) && free == [n] + old(free) && Distinct(free)
      ensures forall i :: 0 <= i < pdqmb.Length ==> pdqmb[i].data == old(pdqmb[i].data) && pdqmb[i].datapri == old(pdqmb[i].datapri)
    {
      ghost var nodes0, y := pdqmb[..], pdqmb[n].(next := freelist);
      ListedFrame(nodes0, head, live, n, y);
      ListedFrame(nodes0, freelist, free, n, y);
      pdqmb[n] := pdqmb[n].(next := freelist);
      assert pdqmb[..] == nodes0[n := y];
      freelist := Some(n);
      assert ([n] + free)[1..] == free;
      free := [n] + free;
    }

    lemma FirstAndRest(list: seq<nat>)
      requires Distinct(list) && list != []
      ensures list == [list[0]] + list[1..] && Distinct(list[1..]) && list[0] !in list[1..]
      ensures forall y: nat :: y in list <==> y == list[0] || y in list[1..]
    {
      assert list == [list[0]] + list[1..];
    }

    lemma SameContents(nodes: seq<Pdqmb>, nodes1: seq<Pdqmb>, list: seq<nat>)
      requires |nodes1| == |nodes| && Below(list, |nodes|)
      requires forall i :: 0 <= i < |nodes| ==> nodes1[i].data == nodes[i].data && nodes1[i].datapri == nodes[i].datapri
      ensures Contents(nodes1, list) == Contents(nodes, list)
    {}

    /** The first receiver gets the datum. */
    method Deliver(x: Entry)
      requires Valid() && rwaitQueue != []
      modifies `rwaitQueue, `answers
      ensures Valid() && Buffered() == old(Buffered())
      ensures rwaitQueue == old(rwaitQueue)[1..] && answers == old(answers) + [Served(old(rwaitQueue)[0].task, x)]
    {
      var w := rwaitQueue[0];
      rwaitQueue := rwaitQueue[1..];
      answers := answers + [Served(w.task, x)];
    }

    method SendPridata(x: Entry) returns (sent: bool)
      requires Valid()
      modifies this, pdqmb
      ensures Valid() && (State(), sent) == PriorityDataQueueSpec.SendPridata(old(State()), x)
    {
      if rwaitQueue != [] {
        Deliver(x);
        return true;
      } else if count < pdqcnt {
        EnqueuePridata(x);
        return true;
      } else {
        return false;
      }
    }

    method ReceivePridata() returns (o: Outcome)
      requires Valid()
      modifies this, pdqmb
      ensures Valid() && (State(), o) == PriorityDataQueueSpec.ReceivePridata(old(State()))
    {
      if count > 0 {
        var x := DequeuePridata();
        if swaitQueue != [] {
          var w := swaitQueue[0];
          swaitQueue := swaitQueue[1..];
          EnqueuePridata(w.what);
          answers := answers + [Served(w.task, NOTHING)];
        }
        o := Got(x);
      } else if swaitQueue != [] {
        var w := swaitQueue[0];
        swaitQueue := swaitQueue[1..];
        answers := answers + [Served(w.task, NOTHING)];
        o := Got(w.what);
      } else {
        o := Tmout;
      }
    }

    method SndPdq(w: Waiter<Entry>) returns (o: Outcome)
      requires Valid() && Lawful(State())
      modifies this, pdqmb
      ensures Valid() && Lawful(State()) && (State(), o) == Next(old(State()), Snd(w))
    {
      NextLawful(State(), Snd(w));
      var sent := SendPridata(w.what);
      if sent {
        o := Done;
      } else {
        swaitQueue := Enroll(swaitQueue, w, tpri);
        o := Blocked;
      }
    }

    method RcvPdq(r: Waiter<()>) returns (o: Outcome)
      requires Valid() && Lawful(State())
      modifies this, pdqmb
      ensures Valid() && Lawful(State()) && (State(), o) == Next(old(State()), Rcv(r))
    {
      NextLawful(State(), Rcv(r));
      o := ReceivePridata();
      if !o.Got? {
        rwaitQueue := Enroll(rwaitQueue, r, false);
        o := Blocked;
      }
    }
  }

  function Numbers(n: nat): (all: set<nat>)
    ensures |all| == n && forall x: nat :: x in all <==> x < n
  {
    if n == 0 then {} else Numbers(n - 1) + {n - 1}
  }

  function Members(list: seq<nat>): (all: set<nat>)
    ensures forall x: nat :: x in all <==> x in list
  {
    if list == [] then {} else {list[0]} + Members(list[1..])
  }

  lemma {:induction false} MembersSize(list: seq<nat>)
    requires Distinct(list)
    ensures |Members(list)| == |list|
  {
    if list != [] {
      MembersSize(list[1..]);
      assert list[0] !in list[1..];
    }
  }
}
