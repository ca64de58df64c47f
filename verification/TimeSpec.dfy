/** Time events without the heap and without words that wrap: what the clock, the alarms and the cyclic
    notifications do in unbounded time, and what that comes to over whole runs.

    The steps are those the kernel takes with the CPU locked: reading the timer, starting and stopping an
    event, calling back the earliest one, adjusting and setting the clock. A service call is one or two of
    them, `signal_time` any number of readings and call backs; between two call backs, when a notification
    handler runs, there may be any other steps. The class `TimeEvents.TimeEvents` is proved to take them.
  */
module TimeSpec {
  import opened EventTime

  /** What happens when an event has been called back: nothing more, or it comes again after `cyctim`. The
      first time is `cycphs` after the start. */
  datatype Kind = OneShot | Cyclic(cyctim: nat, cycphs: nat)

  /** When an event was started, as a count of the timer and as an event time, and the relative time asked
      for. */
  datatype Birth = Birth(h: nat, c: int, time: nat)

  /** A call back: of which event, when it was due, the count and the event time it was made at, the start
      that it belongs to, and how many there had been since. */
  datatype Call = Call(e: nat, due: int, h: nat, c: int, birth: Birth, k: nat)

  /** `h` is the true count of the timer when it was last read, `c` the event time, `m` the furthest it has
      ever been, `m + k` the system time, `due` when the events that are started are due. */
  datatype State = State(kind: seq<Kind>, step: nat, h: nat, c: int, m: int, k: int, due: map<nat, int>,
                         birth: seq<Birth>, times: seq<nat>, log: seq<Call>)

  function Max(a: int, b: int): int { if a >= b then a else b }

  function Every(x: Kind): nat { if x.Cyclic? then x.cyctim else 0 }

  /** When an event is due for the first time: a full step of the timer later than asked for. */
  function First(b: Birth, step: nat): int { b.c + step + b.time }

  predicate WellFormed(s: State) {
    |s.birth| == |s.times| == |s.kind| && forall e :: e in s.due ==> e < |s.kind|
  }

  function Read(s: State, now: nat): State {
    var c := s.c + now - s.h;
    s.(h := now, c := c, m := Max(s.m, c))
  }

  function Begin(s: State, e: nat, time: nat): State
    requires WellFormed(s) && e < |s.kind|
  {
    var b := Birth(s.h, s.c, time);
    s.(due := s.due[e := First(b, s.step)], birth := s.birth[e := b], times := s.times[e := 0])
  }

  function End(s: State, e: nat): State { s.(due := s.due - {e}) }

  /** The event is called back; a cyclic one is due again a period after it was due. */
  function Called(s: State, e: nat): State
    requires WellFormed(s) && e in s.due
  {
    var t := s.due[e];
    var s1 := s.(log := s.log + [Call(e, t, s.h, s.c, s.birth[e], s.times[e])]);
    match s.kind[e]
    case OneShot => s1.(due := s.due - {e})
    case Cyclic(cyctim, _) => s1.(due := s.due[e := t + cyctim], times := s.times[e := s.times[e] + 1])
  }

  predicate Earliest(s: State, e: nat) { e in s.due && forall x :: x in s.due ==> s.due[e] <= s.due[x] }

  predicate Refused(s: State, adjtim: int) {
    || (adjtim > 0 && exists x :: x in s.due && s.due[x] + TMAX_ADJTIM <= s.c)
    || (adjtim < 0 && s.m - s.c >= TMAX_ADJTIM)
  }

  function Adjusted(s: State, adjtim: int): State { s.(c := s.c + adjtim, m := Max(s.m, s.c + adjtim)) }

  function SystemTime(s: State): int { Wrap64(s.k + s.m) }

  datatype Step = ReadTo(now: nat) | StartEvent(e: nat, time: nat) | StopEvent(e: nat) | CallEvent(e: nat)
                | Adjust(adjtim: int) | SetTo(systim: int)

  /** A step that cannot be taken changes nothing: the timer does not go back, and only an event that is due
      and the earliest is called back. */
  function Next(s: State, x: Step): State
    requires WellFormed(s)
  {
    match x
    case ReadTo(now) => if s.h <= now then Read(s, now) else s
    case StartEvent(e, time) => if e < |s.kind| then Begin(s, e, time) else s
    case StopEvent(e) => End(s, e)
    case CallEvent(e) => if Earliest(s, e) && s.due[e] <= s.c then Called(s, e) else s
    case Adjust(adjtim) => if TMIN_ADJTIM <= adjtim <= TMAX_ADJTIM && !Refused(s, adjtim) then Adjusted(s, adjtim) else s
    case SetTo(systim) => s.(k := systim - s.m)
  }

  lemma NextWellFormed(s: State, x: Step)
    requires WellFormed(s)
    ensures WellFormed(Next(s, x)) && Next(s, x).kind == s.kind && Next(s, x).step == s.step
  {}

  function Run(s: State, xs: seq<Step>): (r: State)
    requires WellFormed(s)
    ensures WellFormed(r) && r.kind == s.kind && r.step == s.step
    decreases |xs|
  {
    if xs == [] then s
    else
      var r := Run(s, xs[..|xs| - 1]);
      NextWellFormed(r, xs[|xs| - 1]);
      Next(r, xs[|xs| - 1])
  }

  /** A service call reads the timer and does one thing. */
  lemma ServiceIsRun(s: State, now: nat, x: Step)
    requires WellFormed(s) && s.h <= now
    ensures Run(s, [ReadTo(now)]) == Read(s, now) && Run(s, [ReadTo(now), x]) == Next(Read(s, now), x)
  {
    RunOneMore(s, [], ReadTo(now));
    RunOneMore(s, [ReadTo(now)], x);
    assert [] + [ReadTo(now)] == [ReadTo(now)] && [ReadTo(now)] + [x] == [ReadTo(now), x];
  }

  lemma RunOneMore(s: State, xs: seq<Step>, x: Step)
    requires WellFormed(s)
    ensures Run(s, xs + [x]) == Next(Run(s, xs), x)
  {
    assert (xs + [x])[..|xs|] == xs;
  }

  lemma {:induction false} RunTwice(s: State, xs: seq<Step>, ys: seq<Step>)
    requires WellFormed(s)
    ensures Run(s, xs + ys) == Run(Run(s, xs), ys)
    decreases |ys|
  {
    if ys == [] {
      assert xs + ys == xs;
    } else {
      var n := |ys| - 1;
      RunTwice(s, xs, ys[..n]);
      assert (xs + ys)[..|xs| + n] == xs + ys[..n];
    }
  }

  predicate Initial(s: State) {
    WellFormed(s) && s.m == s.c && s.due == map[] && s.log == []
  }

  // ---------- when call backs are made ----------

  /** A started event is due a whole number of periods after the first time. */
  predicate SteadyAt(s: State, e: nat)
    requires WellFormed(s)
  {
    e in s.due ==> s.due[e] == s.birth[e].c + s.step + s.birth[e].time + s.times[e] * Every(s.kind[e])
  }

  /** The call was made no earlier than its due time, which is a whole number of periods after the first time. */
  predicate OnTimeAt(s: State, i: nat) {
    i < |s.log| ==>
      var x := s.log[i];
      x.e < |s.kind| && x.due <= x.c && x.due == x.birth.c + s.step + x.birth.time + x.k * Every(s.kind[x.e])
  }

  ghost predicate Punctual(s: State) {
    WellFormed(s) && (forall e: nat :: SteadyAt(s, e)) && (forall i: nat :: OnTimeAt(s, i))
  }

  lemma NextPeriod(start: int, k: nat, cyctim: nat)
    ensures start + k * cyctim + cyctim == start + (k + 1) * cyctim
  {}

  lemma NextPunctual(s: State, x: Step)
    requires Punctual(s)
    ensures Punctual(Next(s, x))
  {
    var s1 := Next(s, x);
    NextWellFormed(s, x);
    forall e: nat ensures SteadyAt(s1, e) {
      assert SteadyAt(s, e);
      if x.CallEvent? && x.e == e && e in s.due { NextPeriod(First(s.birth[e], s.step), s.times[e], Every(s.kind[e])); }
    }
    forall i: nat ensures OnTimeAt(s1, i) {
      assert OnTimeAt(s, i);
      if x.CallEvent? { assert SteadyAt(s, x.e); }
    }
  }

  /** In every run, whatever is done to the clock: no call back is made before its event time, and the k-th of a
      cyclic event is due exactly k periods after the first, however late the others were made. */
  lemma {:induction false} AlwaysPunctual(s: State, xs: seq<Step>)
    requires Initial(s)
    ensures Punctual(Run(s, xs))
    decreases |xs|
  {
    if xs == [] {
      forall e: nat ensures SteadyAt(s, e) {}
      forall i: nat ensures OnTimeAt(s, i) {}
    } else {
      AlwaysPunctual(s, xs[..|xs| - 1]);
      NextPunctual(Run(s, xs[..|xs| - 1]), xs[|xs| - 1]);
    }
  }

  /** Event time and count have kept their distance `d` since each start. */
  ghost predicate Together(s: State, d: int) {
    && WellFormed(s) && s.c - s.h == d
    && (forall e: nat :: e in s.due ==> s.birth[e].c - s.birth[e].h == d)
    && (forall i :: 0 <= i < |s.log| ==> s.log[i].c - s.log[i].h == s.log[i].birth.c - s.log[i].birth.h == d)
  }

  lemma NextTogether(s: State, x: Step, d: int)
    requires Together(s, d) && !x.Adjust?
    ensures Together(Next(s, x), d)
  {
    NextWellFormed(s, x);
    var s1 := Next(s, x);
    forall e: nat | e in s1.due ensures s1.birth[e].c - s1.birth[e].h == d {}
    forall i | 0 <= i < |s1.log| ensures s1.log[i].c - s1.log[i].h == s1.log[i].birth.c - s1.log[i].birth.h == d {
      assert i < |s.log| ==> s1.log[i] == s.log[i];
    }
  }

  lemma {:induction false} AlwaysTogether(s: State, xs: seq<Step>)
    requires Initial(s) && forall x :: x in xs ==> !x.Adjust?
    ensures Together(Run(s, xs), s.c - s.h)
    decreases |xs|
  {
    if xs != [] {
      AlwaysTogether(s, xs[..|xs| - 1]);
      NextTogether(Run(s, xs[..|xs| - 1]), xs[|xs| - 1], s.c - s.h);
    }
  }

  /** As long as the clock is not adjusted, an event started at count `h` with relative time `time` is called
      back only when the timer has counted `time` and a step further, and a cyclic one for the k-th time
      only when it has counted k periods more. */
  lemma NeverEarly(s: State, xs: seq<Step>, i: nat)
    requires Initial(s) && (forall x :: x in xs ==> !x.Adjust?) && i < |Run(s, xs).log|
    ensures var x := Run(s, xs).log[i];
      x.e < |s.kind| && x.h >= x.birth.h + x.birth.time + s.step + x.k * Every(s.kind[x.e])
  {
    AlwaysPunctual(s, xs);
    AlwaysTogether(s, xs);
    assert OnTimeAt(Run(s, xs), i);
  }

  // ---------- in which order ----------

  /** The calls are in the order of their due times, and nothing is due before the latest of them. */
  ghost predicate Chronological(s: State) {
    && (forall i, j :: 0 <= i < j < |s.log| ==> s.log[i].due <= s.log[j].due)
    && (s.log != [] ==>
          var t := s.log[|s.log| - 1].due;
          t <= s.c && forall e: nat :: e in s.due ==> t <= s.due[e])
  }

  lemma NextChronological(s: State, x: Step)
    requires WellFormed(s) && Chronological(s) && !(x.Adjust? && x.adjtim < 0)
    ensures Chronological(Next(s, x))
  {
    var s1 := Next(s, x);
    if x.CallEvent? && s1 != s {
      forall i, j | 0 <= i < j < |s1.log| ensures s1.log[i].due <= s1.log[j].due {
        assert s1.log[i] == s.log[i] && s.log[i].due <= s.log[|s.log| - 1].due;
        assert j < |s.log| ==> s1.log[j] == s.log[j];
      }
    }
  }

  /** As long as the clock is not set back, all call backs of a run come in the order of their due times. */
  lemma {:induction false} CallsInOrder(s: State, xs: seq<Step>)
    requires Initial(s) && forall x :: x in xs ==> !(x.Adjust? && x.adjtim < 0)
    ensures Chronological(Run(s, xs))
    decreases |xs|
  {
    if xs != [] {
      CallsInOrder(s, xs[..|xs| - 1]);
      NextChronological(Run(s, xs[..|xs| - 1]), xs[|xs| - 1]);
    }
  }

  /** Every period of a started cyclic event that is over has been called back. */
  ghost predicate CompleteAt(s: State, e: nat, k: nat)
    requires WellFormed(s)
  {
    e in s.due && k < s.times[e] ==> exists i :: 0 <= i < |s.log| && IsCall(s.log[i], e, s.birth[e], k)
  }

  predicate IsCall(x: Call, e: nat, b: Birth, k: nat) { x.e == e && x.birth == b && x.k == k }

  /** In every run, no period is left out. */
  lemma {:induction false} NoneLeftOut(s: State, xs: seq<Step>, e: nat, k: nat)
    requires Initial(s)
    ensures CompleteAt(Run(s, xs), e, k)
    decreases |xs|
  {
    if xs != [] {
      var r, x := Run(s, xs[..|xs| - 1]), xs[|xs| - 1];
      var r1 := Next(r, x);
      NoneLeftOut(s, xs[..|xs| - 1], e, k);
      if e in r1.due && k < r1.times[e] {
        if e in r.due && k < r.times[e] {
          var i :| 0 <= i < |r.log| && IsCall(r.log[i], e, r.birth[e], k);
          assert IsCall(r1.log[i], e, r1.birth[e], k);
        } else {
          assert IsCall(r1.log[|r.log|], e, r1.birth[e], k);
        }
      }
    }
  }

  // ---------- what is due is called back ----------

  /** Only readings and call backs, as in `signal_time` when no handler does anything. */
  predicate Quiet(xs: seq<Step>) { forall x :: x in xs ==> x.ReadTo? || x.CallEvent? }

  /** Since `s`, event `e` has been called back for the time it was due then, or it is due then still. */
  ghost predicate Served(s: State, s1: State, e: nat) {
    e in s.due ==>
      || (e in s1.due && s1.due[e] == s.due[e])
      || exists i :: |s.log| <= i < |s1.log| && s1.log[i].e == e && s1.log[i].due == s.due[e]
  }

  /** What stays as it is while only the clock is read and events are called back. */
  ghost predicate Undisturbed(s: State, s1: State) {
    && s.log <= s1.log && s1.c - s1.h == s.c - s.h && s1.k == s.k && s1.birth == s.birth
    && (forall i :: |s.log| <= i < |s1.log| ==> s1.log[i].c - s1.log[i].h == s.c - s.h)
    && s1.m == Max(s.m, s1.c) && s.c <= s1.c && forall e: nat :: e in s1.due ==> e in s.due
  }

  lemma NextUndisturbed(s: State, r: State, x: Step)
    requires WellFormed(r) && Undisturbed(s, r) && (x.ReadTo? || x.CallEvent?)
    ensures Undisturbed(s, Next(r, x))
  {
    var s1 := Next(r, x);
    forall i | |s.log| <= i < |s1.log| ensures s1.log[i].c - s1.log[i].h == s.c - s.h {
      assert i < |r.log| ==> s1.log[i] == r.log[i];
    }
  }

  lemma NextServed(s: State, r: State, x: Step, e: nat)
    requires WellFormed(r) && s.log <= r.log && Served(s, r, e) && (x.ReadTo? || x.CallEvent?)
    ensures Served(s, Next(r, x), e)
  {
    var s1 := Next(r, x);
    if e in s.due && !(e in r.due && r.due[e] == s.due[e]) {
      var i :| |s.log| <= i < |r.log| && r.log[i].e == e && r.log[i].due == s.due[e];
      assert s1.log[i] == r.log[i];
    } else if x.CallEvent? && x.e == e && s1 != r {
      assert s1.log[|r.log|].e == e;
    }
  }

  lemma {:induction false} QuietServes(s: State, xs: seq<Step>, e: nat)
    requires WellFormed(s) && s.c <= s.m && Quiet(xs)
    ensures Served(s, Run(s, xs), e) && Undisturbed(s, Run(s, xs))
    decreases |xs|
  {
    if xs != [] {
      var r, x := Run(s, xs[..|xs| - 1]), xs[|xs| - 1];
      QuietServes(s, xs[..|xs| - 1], e);
      NextServed(s, r, x, e);
      NextUndisturbed(s, r, x);
    }
  }

  /** When `signal_time` leaves off because nothing is due, every event that was due by then has been called
      back for that time. */
  lemma DueIsCalled(s: State, xs: seq<Step>, e: nat)
    requires WellFormed(s) && s.c <= s.m && Quiet(xs) && e in s.due && s.due[e] <= Run(s, xs).c
    requires forall x :: x in Run(s, xs).due ==> Run(s, xs).due[x] > Run(s, xs).c
    ensures exists i :: |s.log| <= i < |Run(s, xs).log| && Run(s, xs).log[i].e == e && Run(s, xs).log[i].due == s.due[e]
  {
    QuietServes(s, xs, e);
    assert Served(s, Run(s, xs), e);
  }

  /** Between `s` and `s1` everything that fell due has been called back for the time it was due, with clock and
      count as far apart as before, and nothing else has changed: other events are due when they were. */
  ghost predicate Settled(s: State, s1: State) {
    && Undisturbed(s, s1)
    && (forall e: nat :: e in s.due && s.due[e] <= s1.c ==> CalledAt(s1, |s.log|, e, s.due[e]))
    && (forall e: nat :: e in s.due && s.due[e] > s1.c ==> e in s1.due && s1.due[e] == s.due[e])
    && (forall e: nat :: e in s1.due ==> s1.due[e] > s1.c)
  }

  /** Event `e`, due at `t`, is among the calls from number `n` on. */
  ghost predicate CalledAt(s: State, n: nat, e: nat, t: int) {
    exists i :: n <= i < |s.log| && s.log[i].e == e && s.log[i].due == t
  }

  lemma SettledAfter(s: State, xs: seq<Step>)
    requires WellFormed(s) && s.c <= s.m && Quiet(xs)
    requires forall x :: x in Run(s, xs).due ==> Run(s, xs).due[x] > Run(s, xs).c
    ensures Settled(s, Run(s, xs))
  {
    var s1 := Run(s, xs);
    QuietServes(s, xs, 0);
    forall e: nat | e in s.due && s.due[e] <= s1.c ensures CalledAt(s1, |s.log|, e, s.due[e]) { DueIsCalled(s, xs, e); }
    forall e: nat | e in s.due && s.due[e] > s1.c ensures e in s1.due && s1.due[e] == s.due[e] { NotDueStays(s, xs, e); }
  }

  /** An event that is not due by then stays as it is. */
  lemma {:induction false} NotDueStays(s: State, xs: seq<Step>, e: nat)
    requires WellFormed(s) && Quiet(xs) && e in s.due && s.due[e] > Run(s, xs).c
    ensures e in Run(s, xs).due && Run(s, xs).due[e] == s.due[e] && Run(s, xs).times[e] == s.times[e]
    decreases |xs|
  {
    if xs != [] { NotDueStays(s, xs[..|xs| - 1], e); }
  }

  // ---------- the system time ----------

  /** The furthest event time is never passed by and never far ahead. */
  lemma {:induction false} LagIsBounded(s: State, xs: seq<Step>)
    requires Initial(s)
    ensures var r := Run(s, xs); r.c <= r.m <= r.c + 1_999_999
    decreases |xs|
  {
    if xs != [] { LagIsBounded(s, xs[..|xs| - 1]); }
  }

  /** It is the maximum of all event times there have been: no prefix of the run has a later one, and some
      prefix has just that. */
  lemma FurthestIsMaximum(s: State, xs: seq<Step>) returns (j: nat)
    requires Initial(s)
    ensures forall i :: 0 <= i <= |xs| ==> Run(s, xs[..i]).c <= Run(s, xs).m
    ensures j <= |xs| && Run(s, xs[..j]).c == Run(s, xs).m
  {
    forall i | 0 <= i <= |xs| ensures Run(s, xs[..i]).c <= Run(s, xs).m { NeverPassed(s, xs, i); }
    j := OnceReached(s, xs);
  }

  lemma {:induction false} NeverPassed(s: State, xs: seq<Step>, i: nat)
    requires Initial(s) && i <= |xs|
    ensures Run(s, xs[..i]).c <= Run(s, xs).m
    decreases |xs|
  {
    LagIsBounded(s, xs);
    if i == |xs| {
      assert xs[..i] == xs;
    } else {
      var ys := xs[..|xs| - 1];
      assert ys[..i] == xs[..i];
      NeverPassed(s, ys, i);
    }
  }

  lemma {:induction false} OnceReached(s: State, xs: seq<Step>) returns (j: nat)
    requires Initial(s)
    ensures j <= |xs| && Run(s, xs[..j]).c == Run(s, xs).m
    decreases |xs|
  {
    j := |xs|;
    assert xs[..j] == xs;
    if xs != [] && Run(s, xs).m != Run(s, xs).c {
      var ys := xs[..|xs| - 1];
      LagIsBounded(s, ys);
      j := OnceReached(s, ys);
      assert ys[..j] == xs[..j];
    }
  }

  lemma {:induction false} FurthestGrows(s: State, ys: seq<Step>)
    requires WellFormed(s) && forall y :: y in ys ==> !y.SetTo?
    ensures Run(s, ys).k == s.k && s.m <= Run(s, ys).m
    decreases |ys|
  {
    if ys != [] { FurthestGrows(s, ys[..|ys| - 1]); }
  }

  /** Between two readings of the system time without `set_tim` it goes up by just as much as the furthest event
      time, whatever adjustments there are: it never goes back. */
  lemma TimeNeverGoesBack(s: State, xs: seq<Step>, ys: seq<Step>)
    requires Initial(s) && forall y :: y in ys ==> !y.SetTo?
    ensures var r, r1 := Run(s, xs), Run(s, xs + ys);
      && r.m <= r1.m && SystemTime(r1) == Wrap64(SystemTime(r) + (r1.m - r.m))
      && (0 <= r.k + r.m && r1.k + r1.m < U64 ==> SystemTime(r) <= SystemTime(r1))
  {
    var r, r1 := Run(s, xs), Run(s, xs + ys);
    assert r1.k == r.k && r.m <= r1.m by {
      RunTwice(s, xs, ys);
      FurthestGrows(r, ys);
    }
    Later(r.k, r.m, r1.m);
  }

  lemma Later(k: int, m: int, m1: int)
    requires m <= m1
    ensures Wrap64(k + m1) == Wrap64(Wrap64(k + m) + (m1 - m))
    ensures 0 <= k + m && k + m1 < U64 ==> Wrap64(k + m) <= Wrap64(k + m1)
  {
    Wrap64Add(k + m, m1 - m);
    if 0 <= k + m && k + m1 < U64 {
      Unique64(k + m, 0, k + m);
      Unique64(k + m1, 0, k + m1);
    }
  }

  /** What `set_tim` has set is read back, plus what the furthest event time has gained since. */
  lemma {:induction false} SetReadsBack(s: State, xs: seq<Step>, systim: int, ys: seq<Step>)
    requires Initial(s) && forall y :: y in ys ==> !y.SetTo?
    ensures var r, r1 := Run(s, xs), Run(s, xs + [SetTo(systim)] + ys);
      r.m <= r1.m && SystemTime(r1) == Wrap64(systim + (r1.m - r.m))
  {
    RunOneMore(s, xs, SetTo(systim));
    RunTwice(s, xs + [SetTo(systim)], ys);
    FurthestGrows(Run(s, xs + [SetTo(systim)]), ys);
  }

  // ---------- the event time ----------

  /** An event is overdue by a whole adjustment, which bars adjusting forward, or the clock is a whole adjustment behind
      the furthest event time, which bars adjusting backward. */
  ghost predicate Bars(s: State, adjtim: int) {
    || adjtim > 1_000_000 || adjtim < -1_000_000
    || (adjtim > 0 && exists e :: e in s.due && s.c - s.due[e] >= 1_000_000)
    || (adjtim < 0 && s.m - s.c >= 1_000_000)
  }

  /** What has been asked for by adjustments that nothing barred. */
  ghost function AdjustedBy(s: State, xs: seq<Step>): int
    requires WellFormed(s)
    decreases |xs|
  {
    if xs == [] then 0
    else
      var before := AdjustedBy(s, xs[..|xs| - 1]);
      match xs[|xs| - 1]
      case Adjust(adjtim) => if Bars(Run(s, xs[..|xs| - 1]), adjtim) then before else before + adjtim
      case _ => before
  }

  /** In every run, the event time gains on the count of the timer exactly what adjustments ask for that nothing bars. */
  lemma {:induction false} ClockIsAdjusted(s: State, xs: seq<Step>)
    requires WellFormed(s)
    ensures Run(s, xs).c - Run(s, xs).h == s.c - s.h + AdjustedBy(s, xs)
    decreases |xs|
  {
    if xs != [] {
      ClockIsAdjusted(s, xs[..|xs| - 1]);
      AdjustStep(Run(s, xs[..|xs| - 1]), xs[|xs| - 1]);
    }
  }

  lemma AdjustStep(s: State, x: Step)
    requires WellFormed(s)
    ensures Next(s, x).c - Next(s, x).h == s.c - s.h + (if x.Adjust? && !Bars(s, x.adjtim) then x.adjtim else 0)
  {
    if x.Adjust? {
      assert (exists e :: e in s.due && s.due[e] + TMAX_ADJTIM <= s.c) <==> (exists e :: e in s.due && s.c - s.due[e] >= 1_000_000);
    }
  }

  // ---------- what calls go back to ----------

  /** Step number `j` of the run started event `e` as `b` says. */
  predicate StartedAt(s: State, xs: seq<Step>, j: nat, e: nat, b: Birth)
    requires WellFormed(s)
  {
    j < |xs| && xs[j] == StartEvent(e, b.time) && Run(s, xs[..j]).h == b.h && Run(s, xs[..j]).c == b.c
  }

  /** Between steps `j` and `n` of the run event `e` was neither started nor stopped. */
  predicate LeftAlone(xs: seq<Step>, j: nat, n: nat, e: nat) {
    forall i :: j < i < n && i < |xs| ==> !(xs[i].StartEvent? && xs[i].e == e) && xs[i] != StopEvent(e)
  }

  /** In every run, an event that is due was started by a step since which it has been left alone. */
  lemma {:induction false} DueSinceStart(s: State, xs: seq<Step>, e: nat) returns (j: nat)
    requires Initial(s) && e in Run(s, xs).due
    ensures StartedAt(s, xs, j, e, Run(s, xs).birth[e]) && LeftAlone(xs, j, |xs|, e)
    decreases |xs|
  {
    var n := |xs| - 1;
    var before := xs[..n];
    if xs[n].StartEvent? && xs[n].e == e {
      j := n;
    } else {
      assert e in Run(s, before).due && Run(s, xs).birth[e] == Run(s, before).birth[e] && xs[n] != StopEvent(e);
      j := DueSinceStart(s, before, e);
      assert xs[..j] == before[..j];
    }
  }

  /** Step number `n` of the run made call `x`, which is number `i`. */
  predicate MadeAt(s: State, xs: seq<Step>, n: nat, x: Call, i: nat)
    requires WellFormed(s)
  {
    n < |xs| && xs[n] == CallEvent(x.e) && Run(s, xs[..n]).h == x.h && Run(s, xs[..n]).c == x.c
    && |Run(s, xs[..n]).log| == i && |Run(s, xs[..n + 1]).log| == i + 1
  }

  lemma {:induction false} LongerRun(s: State, xs: seq<Step>, j: nat, n: nat, x: Call, i: nat)
    requires WellFormed(s) && xs != [] && j < n
    requires var before := xs[..|xs| - 1];
      StartedAt(s, before, j, x.e, x.birth) && MadeAt(s, before, n, x, i) && LeftAlone(before, j, n, x.e)
    ensures StartedAt(s, xs, j, x.e, x.birth) && MadeAt(s, xs, n, x, i) && LeftAlone(xs, j, n, x.e)
  {
    var before := xs[..|xs| - 1];
    assert xs[..n] == before[..n] && xs[..n + 1] == before[..n + 1] && xs[..j] == before[..j];
  }

  lemma {:induction false} LastCall(s: State, xs: seq<Step>) returns (j: nat)
    requires Initial(s) && xs != [] && |Run(s, xs).log| > |Run(s, xs[..|xs| - 1]).log|
    ensures var m := |xs| - 1;
      var i := |Run(s, xs[..m]).log|;
      && |Run(s, xs).log| == i + 1
      && var x := Run(s, xs).log[i];
      && j < m && StartedAt(s, xs, j, x.e, x.birth) && MadeAt(s, xs, m, x, i) && LeftAlone(xs, j, m, x.e)
  {
    var m := |xs| - 1;
    var e := xs[m].e;
    j := DueSinceStart(s, xs[..m], e);
    assert xs[..j] == xs[..m][..j] && xs[..m + 1] == xs;
  }

  /** In every run, each call back was made by a step of its own, at the count and the event time it says, for a start since
      which the event had been left alone. */
  lemma {:induction false} CallsGoBack(s: State, xs: seq<Step>, i: nat) returns (j: nat, n: nat)
    requires Initial(s) && i < |Run(s, xs).log|
    ensures var x := Run(s, xs).log[i];
      j < n && StartedAt(s, xs, j, x.e, x.birth) && MadeAt(s, xs, n, x, i) && LeftAlone(xs, j, n, x.e)
    decreases |xs|
  {
    var m := |xs| - 1;
    var r := Run(s, xs[..m]);
    if i < |r.log| {
      j, n := CallsGoBack(s, xs[..m], i);
      LogKept(r, xs[m], i);
      LongerRun(s, xs, j, n, r.log[i], i);
    } else {
      n := m;
      j := LastCall(s, xs);
    }
  }

  lemma LogKept(s: State, x: Step, i: nat)
    requires WellFormed(s) && i < |s.log|
    ensures i < |Next(s, x).log| && Next(s, x).log[i] == s.log[i]
  {}

  /** After a stop, and until the next start, an event is not called back. */
  lemma {:induction false} StoppedIsSilent(s: State, xs: seq<Step>, e: nat, ys: seq<Step>, i: nat)
    requires Initial(s) && forall y :: y in ys ==> !(y.StartEvent? && y.e == e)
    requires |Run(s, xs).log| <= i < |Run(s, xs + [StopEvent(e)] + ys).log|
    ensures Run(s, xs + [StopEvent(e)] + ys).log[i].e != e
  {
    var zs := xs + [StopEvent(e)] + ys;
    var j, n := CallsGoBack(s, zs, i);
    assert zs[|xs|] == StopEvent(e) && zs[..|xs|] == xs;
    if n < |xs| { LogLonger(s, zs, n + 1, |xs|); }
    forall k | |xs| < k < |zs| ensures !(zs[k].StartEvent? && zs[k].e == e) { assert zs[k] == ys[k - |xs| - 1] && zs[k] in ys; }
  }

  lemma {:induction false} LogLonger(s: State, xs: seq<Step>, i: nat, j: nat)
    requires WellFormed(s) && i <= j <= |xs|
    ensures |Run(s, xs[..i]).log| <= |Run(s, xs[..j]).log|
    decreases j
  {
    if i < j {
      LogLonger(s, xs, i, j - 1);
      assert xs[..j][..j - 1] == xs[..j - 1];
    }
  }

  /** An event that is not due, and is not started, does not become due. */
  lemma {:induction false} NotDueWithoutStart(s: State, xs: seq<Step>, a: nat, b: nat, e: nat)
    requires WellFormed(s) && a <= b <= |xs| && e !in Run(s, xs[..a]).due
    requires forall i :: a <= i < b ==> !(xs[i].StartEvent? && xs[i].e == e)
    ensures e !in Run(s, xs[..b]).due
    decreases b
  {
    if a < b {
      NotDueWithoutStart(s, xs, a, b - 1, e);
      assert xs[..b][..b - 1] == xs[..b - 1];
    }
  }

  /** In every run, an event that is called back once is called back again only after another start. */
  lemma {:induction false} OneCallPerStart(s: State, xs: seq<Step>, i: nat, i2: nat) returns (n: nat, j2: nat)
    requires Initial(s) && i < i2 < |Run(s, xs).log|
    requires var x := Run(s, xs).log[i]; Run(s, xs).log[i2].e == x.e && x.e < |s.kind| && s.kind[x.e].OneShot?
    ensures n < j2 && MadeAt(s, xs, n, Run(s, xs).log[i], i) && StartedAt(s, xs, j2, Run(s, xs).log[i2].e, Run(s, xs).log[i2].birth)
  {
    var e := Run(s, xs).log[i].e;
    var j, n2;
    j, n := CallsGoBack(s, xs, i);
    j2, n2 := CallsGoBack(s, xs, i2);
    if n2 <= n { LogLonger(s, xs, n2, n); }
    if j2 <= n {
      NotDueAfter(s, xs, n, e);
      NotDueWithoutStart(s, xs, n + 1, n2, e);
      CalledIsDue(s, xs, n2);
      assert false;
    }
  }

  lemma {:induction false} NotDueAfter(s: State, xs: seq<Step>, n: nat, e: nat)
    requires WellFormed(s) && n < |xs| && xs[n] == CallEvent(e) && e < |s.kind| && s.kind[e].OneShot?
    requires |Run(s, xs[..n]).log| < |Run(s, xs[..n + 1]).log|
    ensures e !in Run(s, xs[..n + 1]).due
  {
    StepOf(s, xs, n);
  }

  lemma {:induction false} CalledIsDue(s: State, xs: seq<Step>, n: nat)
    requires WellFormed(s) && n < |xs| && xs[n].CallEvent? && |Run(s, xs[..n]).log| < |Run(s, xs[..n + 1]).log|
    ensures xs[n].e in Run(s, xs[..n]).due
  {
    StepOf(s, xs, n);
  }

  lemma {:induction false} StepOf(s: State, xs: seq<Step>, n: nat)
    requires WellFormed(s) && n < |xs|
    ensures Run(s, xs[..n + 1]) == Next(Run(s, xs[..n]), xs[n])
  {
    RunOneMore(s, xs[..n], xs[n]);
    assert xs[..n] + [xs[n]] == xs[..n + 1];
  }
}
