/**
 The rate-limiting stream adapter (lib/src/sync.rs, module stream).

 One poll reads the clock once. What the inner stream yields during the poll is given as a sequence
 followed by `Pending` or by the end of the stream. A sleep is complete once the clock has reached
 its deadline.
 */
module Throttle {
  import opened Options

  datatype Delay = Delay(until: nat, next: Option<nat>)

  datatype Outcome<+T> = Item(item: T) | Pending | End

  datatype State<T> = State(ready: map<nat, T>, delays: map<T, Delay>, sleep: Option<nat>, nextId: nat)

  function Init<T>(): State<T> { State(map[], map[], None, 0) }

  predicate IsReady<T(==)>(ready: map<nat, T>, x: T) {
    exists id :: id in ready && ready[id] == x
  }

  function B(b: bool): nat { if b then 1 else 0 }

  // ---------------------------------------------------------------- specification of one poll

  /** The effect of one arrival (first loop of poll_next). */
  function Arrive<T(==)>(s: State<T>, period: nat, now: nat, x: T): State<T> {
    if x in s.delays then
      if !IsReady(s.ready, x) && s.delays[x].next.None? then
        s.(delays := s.delays[x := s.delays[x].(next := Some(s.nextId))], nextId := s.nextId + 1)
      else s
    else
      s.(ready := if IsReady(s.ready, x) then s.ready else s.ready[s.nextId := x],
         delays := s.delays[x := Delay(now + period, None)],
         nextId := s.nextId + 1)
  }

  function Absorb<T(==)>(s: State<T>, period: nat, now: nat, arrivals: seq<T>): State<T> {
    if arrivals == [] then s
    else Arrive(Absorb(s, period, now, arrivals[..|arrivals| - 1]), period, now, arrivals[|arrivals| - 1])
  }

  /** A copy of `x` is held back and its delay is over. */
  predicate Due<T(==)>(s: State<T>, now: nat, x: T) {
    x in s.delays && s.delays[x].next.Some? && s.delays[x].until <= now
  }

  /** Earliest deadline first, then lowest entry id. */
  predicate ComesBefore<T(==)>(s: State<T>, now: nat, x: T, y: T)
    requires Due(s, now, x) && Due(s, now, y)
  {
    || s.delays[x].until < s.delays[y].until
    || (s.delays[x].until == s.delays[y].until && s.delays[x].next.value <= s.delays[y].next.value)
  }

  /** `x` comes first among the due items. */
  ghost predicate FirstDue<T(!new)>(s: State<T>, now: nat, x: T) {
    Due(s, now, x) && forall y :: Due(s, now, y) ==> ComesBefore(s, now, x, y)
  }

  ghost predicate Earliest<T>(delays: map<T, Delay>, u: nat) {
    && (exists x :: x in delays && delays[x].until == u)
    && (forall x :: x in delays ==> u <= delays[x].until)
  }

  function Emitted<T(==)>(s: State<T>, period: nat, now: nat, x: T): map<T, Delay>
    requires x in s.delays
  {
    (map y | y in s.delays && !(s.delays[y].next.None? && s.delays[y].until <= s.delays[x].until) :: s.delays[y])
      [x := Delay(now + period, None)]
  }

  /** What a poll does after the arrivals were absorbed. */
  ghost predicate Deliver<T(!new)>(m: State<T>, period: nat, now: nat, finished: bool, t: State<T>, out: Outcome<T>) {
    if m.ready != map[] then
      exists id ::
        && id in m.ready && (forall k :: k in m.ready ==> id <= k)
        && out == Item(m.ready[id]) && t == m.(ready := m.ready - {id})
    else if exists x :: Due(m, now, x) then
      exists x ::
        && FirstDue(m, now, x) && out == Item(x)
        && t == m.(delays := Emitted(m, period, now, x), sleep := None)
    else
      && t.ready == map[] && t.nextId == m.nextId
      && t.delays == (map y | y in m.delays && now < m.delays[y].until :: m.delays[y])
      && out == (if t.delays == map[] && finished then End else Pending)
      && (t.delays == map[] ==> t.sleep.None?)
      && (t.delays != map[] ==> t.sleep.Some? && Earliest(t.delays, t.sleep.value))
  }

  ghost predicate PollSpec<T(!new)>(s: State<T>, period: nat, now: nat, arrivals: seq<T>, finished: bool,
                                    t: State<T>, out: Outcome<T>)
  {
    Deliver(Absorb(s, period, now, arrivals), period, now, finished, t, out)
  }

  // ---------------------------------------------------------------- invariant

  /** `ready` holds each item at most once, and only items whose delay holds nothing back. */
  ghost predicate ReadyOk<T(!new)>(s: State<T>) {
    && (forall id :: id in s.ready ==> id < s.nextId && s.ready[id] in s.delays && s.delays[s.ready[id]].next.None?)
    && (forall i, j :: i in s.ready && j in s.ready && s.ready[i] == s.ready[j] ==> i == j)
  }

  predicate SameNext(d: Delay, e: Delay) { d.next.Some? && d.next == e.next }

  ghost predicate DelaysOk<T(!new)>(s: State<T>, period: nat, now: nat) {
    && (forall x :: x in s.delays ==> s.delays[x].until <= now + period)
    && (forall x :: x in s.delays && s.delays[x].next.Some? ==> s.delays[x].next.value < s.nextId)
    && (forall x, y :: x in s.delays && y in s.delays && SameNext(s.delays[x], s.delays[y]) ==> x == y)
  }

  ghost predicate Valid<T(!new)>(s: State<T>, period: nat, now: nat) {
    && ReadyOk(s) && DelaysOk(s, period, now)
    && (s.sleep.Some? ==> Earliest(s.delays, s.sleep.value))
  }

  /** A copy of `x` waits to be emitted. */
  predicate IsPending<T(==)>(s: State<T>, x: T) {
    IsReady(s.ready, x) || (x in s.delays && s.delays[x].next.Some?)
  }

  /** Delays only ever appear, with a full period, so an armed sleep stays the earliest. */
  ghost predicate DelaysGrow<T(!new)>(s: State<T>, t: State<T>, period: nat, now: nat) {
    && (forall y :: y in s.delays ==> y in t.delays && t.delays[y].until == s.delays[y].until)
    && (forall y :: y in t.delays && y !in s.delays ==> t.delays[y].until == now + period)
  }

  lemma SleepStaysEarliest<T(!new)>(s: State<T>, t: State<T>, period: nat, now: nat)
    requires Valid(s, period, now) && DelaysGrow(s, t, period, now) && t.sleep == s.sleep
    ensures t.sleep.Some? ==> Earliest(t.delays, t.sleep.value)
  {
    if s.sleep.Some? {
      var y :| y in s.delays && s.delays[y].until == s.sleep.value;
      assert y in t.delays && t.delays[y].until == s.sleep.value;
    }
  }

  lemma ArriveKnown<T(!new)>(s: State<T>, period: nat, now: nat, x: T)
    requires Valid(s, period, now) && x in s.delays
    ensures Valid(Arrive(s, period, now, x), period, now) && DelaysGrow(s, Arrive(s, period, now, x), period, now)
  {
    var t := Arrive(s, period, now, x);
    SleepStaysEarliest(s, t, period, now);
    ArriveKnownReady(s, period, now, x);
  }

  lemma ArriveKnownReady<T(!new)>(s: State<T>, period: nat, now: nat, x: T)
    requires ReadyOk(s) && x in s.delays
    ensures ReadyOk(Arrive(s, period, now, x))
  {
    var t := Arrive(s, period, now, x);
    forall id | id in t.ready
      ensures id < t.nextId && t.ready[id] in t.delays && t.delays[t.ready[id]].next.None?
    {
      assert s.ready[id] in s.delays;
    }
  }

  lemma ArriveNew<T(!new)>(s: State<T>, period: nat, now: nat, x: T)
    requires Valid(s, period, now) && x !in s.delays
    ensures Valid(Arrive(s, period, now, x), period, now) && DelaysGrow(s, Arrive(s, period, now, x), period, now)
    ensures !IsReady(s.ready, x)
  {
    var t := Arrive(s, period, now, x);
    SleepStaysEarliest(s, t, period, now);
  }

  lemma ArrivePending<T(!new)>(s: State<T>, period: nat, now: nat, x: T, y: T)
    requires Valid(s, period, now)
    ensures IsPending(Arrive(s, period, now, x), y) <==> IsPending(s, y) || y == x
  {
    var t := Arrive(s, period, now, x);
    if x !in s.delays {
      ArriveNew(s, period, now, x);
      assert t.ready[s.nextId] == x;
      if IsReady(s.ready, y) {
        var id :| id in s.ready && s.ready[id] == y;
        assert id in t.ready && t.ready[id] == y;
      }
    }
  }

  lemma ArriveValid<T(!new)>(s: State<T>, period: nat, now: nat, x: T)
    requires Valid(s, period, now)
    ensures var t := Arrive(s, period, now, x);
      && Valid(t, period, now) && t.sleep == s.sleep && DelaysGrow(s, t, period, now)
      && (forall y :: IsPending(t, y) <==> IsPending(s, y) || y == x)
  {
    if x in s.delays { ArriveKnown(s, period, now, x); } else { ArriveNew(s, period, now, x); }
    forall y ensures IsPending(Arrive(s, period, now, x), y) <==> IsPending(s, y) || y == x {
      ArrivePending(s, period, now, x, y);
    }
  }

  lemma {:induction false} AbsorbValid<T(!new)>(s: State<T>, period: nat, now: nat, arrivals: seq<T>)
    requires Valid(s, period, now)
    ensures var t := Absorb(s, period, now, arrivals);
      && Valid(t, period, now) && t.sleep == s.sleep
      && (forall y :: IsPending(t, y) <==> IsPending(s, y) || y in arrivals)
  {
    if arrivals != [] {
      var n := |arrivals| - 1;
      AbsorbValid(s, period, now, arrivals[..n]);
      ArriveValid(Absorb(s, period, now, arrivals[..n]), period, now, arrivals[n]);
      assert arrivals == arrivals[..n] + [arrivals[n]];
    }
  }

  lemma DeliverReady<T(!new)>(m: State<T>, period: nat, now: nat, finished: bool, t: State<T>, out: Outcome<T>)
    requires Valid(m, period, now) && Deliver(m, period, now, finished, t, out) && m.ready != map[]
    ensures Valid(t, period, now) && t.delays == m.delays
    ensures out.Item? && IsReady(m.ready, out.item)
    ensures forall y :: IsReady(t.ready, y) <==> IsReady(m.ready, y) && out != Item(y)
  {
    var id :| id in m.ready && out == Item(m.ready[id]) && t == m.(ready := m.ready - {id});
    forall y ensures IsReady(t.ready, y) <==> IsReady(m.ready, y) && out != Item(y) {
      if IsReady(m.ready, y) && out != Item(y) {
        var k :| k in m.ready && m.ready[k] == y;
        assert k in t.ready && t.ready[k] == y;
      }
    }
  }

  lemma DeliverValid<T(!new)>(m: State<T>, period: nat, now: nat, finished: bool, t: State<T>, out: Outcome<T>)
    requires Valid(m, period, now) && Deliver(m, period, now, finished, t, out)
    ensures Valid(t, period, now)
    ensures out.Item? ==> IsPending(m, out.item)
    ensures forall y :: IsPending(t, y) <==> IsPending(m, y) && out != Item(y)
  {
    if m.ready != map[] {
      DeliverReady(m, period, now, finished, t, out);
      forall y ensures IsPending(t, y) <==> IsPending(m, y) && out != Item(y) {
        assert IsReady(m.ready, y) ==> m.delays[y].next.None?;
      }
    } else {
      assert t.ready == map[];
      forall y ensures IsPending(t, y) <==> IsPending(m, y) && out != Item(y) {
        assert !IsReady(m.ready, y) && !IsReady(t.ready, y);
        assert Due(m, now, y) <==> y in m.delays && m.delays[y].next.Some? && m.delays[y].until <= now;
      }
    }
  }

  lemma PollValid<T(!new)>(s: State<T>, period: nat, p: Poll<T>, t: State<T>)
    requires Valid(s, period, p.now) && Polled(s, period, p, t)
    ensures Valid(t, period, p.now)
    ensures p.out.Item? ==> IsPending(s, p.out.item) || p.out.item in p.arrivals
    ensures forall y :: IsPending(t, y) <==> (IsPending(s, y) || y in p.arrivals) && p.out != Item(y)
  {
    AbsorbValid(s, period, p.now, p.arrivals);
    DeliverValid(Absorb(s, period, p.now, p.arrivals), period, p.now, p.finished, t, p.out);
  }

  // ---------------------------------------------------------------- runs

  /** One poll as seen from outside. */
  datatype Poll<T> = Poll(now: nat, arrivals: seq<T>, finished: bool, out: Outcome<T>)

  ghost predicate Polled<T(!new)>(s: State<T>, period: nat, p: Poll<T>, t: State<T>) {
    PollSpec(s, period, p.now, p.arrivals, p.finished, t, p.out)
  }

  /** A run: the polls made so far, each with the state it left behind. */
  datatype Run<T> = Start(state: State<T>) | Then(before: Run<T>, poll: Poll<T>, state: State<T>)

  function Clock<T>(run: Run<T>): nat {
    if run.Start? then 0 else run.poll.now
  }

  /** Any sequence of polls of a new adapter with a clock that does not run backwards. */
  ghost predicate IsRun<T(!new)>(period: nat, run: Run<T>) {
    match run
    case Start(state) => state == Init()
    case Then(before, poll, state) =>
      IsRun(period, before) && Clock(before) <= poll.now && Polled(before.state, period, poll, state)
  }

  /** Reference: `x` has arrived since it was last emitted. */
  predicate Owed<T(==)>(run: Run<T>, x: T) {
    run.Then? && (Owed(run.before, x) || x in run.poll.arrivals) && run.poll.out != Item(x)
  }

  function Arrivals<T(==)>(run: Run<T>, x: T): nat {
    if run.Start? then 0 else Arrivals(run.before, x) + multiset(run.poll.arrivals)[x]
  }

  function Emissions<T(==)>(run: Run<T>, x: T): nat {
    if run.Start? then 0 else Emissions(run.before, x) + B(run.poll.out == Item(x))
  }

  /** The clock at the first arrival of `x`. */
  function FirstArrival<T(==)>(run: Run<T>, x: T): Option<nat> {
    if run.Start? then None
    else
      var before := FirstArrival(run.before, x);
      if before.None? && x in run.poll.arrivals then Some(run.poll.now) else before
  }

  lemma {:induction false} RunInv<T(!new)>(period: nat, run: Run<T>)
    requires IsRun(period, run)
    ensures Valid(run.state, period, Clock(run))
    ensures forall x :: IsPending(run.state, x) <==> Owed(run, x)
  {
    if run.Then? {
      RunInv(period, run.before);
      PollValid(run.before.state, period, run.poll, run.state);
    }
  }

  /**
   Nothing is lost and nothing is invented: after every run a copy of `x` waits inside the adapter
   exactly when `x` has arrived since it was last emitted, and what a poll emits was owed or has
   just arrived.
   */
  lemma PendingExactlyWhenOwed<T(!new)>(period: nat, run: Run<T>, x: T)
    requires IsRun(period, run)
    ensures IsPending(run.state, x) <==> Owed(run, x)
    ensures run.Then? && run.poll.out == Item(x) ==> Owed(run.before, x) || x in run.poll.arrivals
  {
    RunInv(period, run);
    if run.Then? {
      RunInv(period, run.before);
      PollValid(run.before.state, period, run.poll, run.state);
    }
  }

  /** At most one copy is held per item: once in `ready` or as the `next` of its delay, never both. */
  lemma OnePendingCopy<T(!new)>(period: nat, run: Run<T>, x: T)
    requires IsRun(period, run)
    ensures var s := run.state;
      && (forall i, j :: i in s.ready && j in s.ready && s.ready[i] == x && s.ready[j] == x ==> i == j)
      && (IsReady(s.ready, x) ==> x in s.delays && s.delays[x].next.None?)
  {
    RunInv(period, run);
  }

  /** Emissions never outnumber arrivals, with one to spare while something is owed. */
  lemma {:induction false} EmissionsBounded<T(!new)>(period: nat, run: Run<T>, x: T)
    requires IsRun(period, run)
    ensures Emissions(run, x) + B(Owed(run, x)) <= Arrivals(run, x)
  {
    if run.Then? {
      EmissionsBounded(period, run.before, x);
      PendingExactlyWhenOwed(period, run, x);
    }
  }

  /**
   What the two other outcomes mean. `End` comes only after the inner stream has ended and with
   nothing owed. `Pending` means that nothing can be emitted at this clock and that the adapter will
   be woken at its earliest deadline, if it has any.
   */
  lemma IdleOutcomes<T(!new)>(period: nat, run: Run<T>)
    requires IsRun(period, run) && run.Then? && !run.poll.out.Item?
    ensures run.state.ready == map[]
    ensures forall x :: x in run.state.delays ==> run.poll.now < run.state.delays[x].until
    ensures if run.state.delays == map[] then run.state.sleep.None?
            else run.state.sleep.Some? && Earliest(run.state.delays, run.state.sleep.value)
    ensures run.poll.out.End? ==> run.poll.finished && forall x :: !Owed(run, x)
    ensures run.poll.out.Pending? && run.poll.finished ==> run.state.delays != map[]
  {
    RunInv(period, run);
    forall x | run.poll.out.End? ensures !Owed(run, x) {
      assert !IsPending(run.state, x);
    }
  }

  // ---------------------------------------------------------------- the rate bound

  /** The length of `k` periods. */
  function Span(k: nat, period: nat): nat {
    if k == 0 then 0 else Span(k - 1, period) + period
  }

  lemma SpanIsProduct(k: nat, period: nat)
    ensures Span(k, period) == k * period
  {
  }

  /** What matters of one item: whether it is in `ready`, and the end of its window, if it has one. */
  datatype Window = Window(ready: bool, until: Option<nat>)

  function WindowOf<T(==)>(s: State<T>, x: T): Window {
    Window(IsReady(s.ready, x), if x in s.delays then Some(s.delays[x].until) else None)
  }

  /** An arrival opens a window if there is none. */
  function Opened(w: Window, period: nat, now: nat, arrived: bool): Window {
    if w.until.None? && arrived then Window(true, Some(now + period)) else w
  }

  predicate Expired(w: Window, now: nat) {
    !w.ready && w.until.Some? && w.until.value <= now
  }

  /** What a delivery does to one window. */
  predicate Moved(w: Window, v: Window, period: nat, now: nat, emitted: bool) {
    if emitted then
      if w.ready then v == w.(ready := false) else Expired(w, now) && v == Window(false, Some(now + period))
    else
      v == w || (Expired(w, now) && v == Window(false, None))
  }

  lemma ReadyAfterInsert<T(!new)>(ready: map<nat, T>, id: nat, y: T, x: T)
    requires id !in ready
    ensures IsReady(ready[id := y], x) <==> IsReady(ready, x) || x == y
  {
    var after := ready[id := y];
    assert after[id] == y;
    if IsReady(ready, x) {
      var k :| k in ready && ready[k] == x;
      assert k in after && after[k] == x;
    }
  }

  lemma ArriveWindow<T(!new)>(s: State<T>, period: nat, now: nat, y: T, x: T)
    requires ReadyOk(s)
    ensures WindowOf(Arrive(s, period, now, y), x) == Opened(WindowOf(s, x), period, now, y == x)
  {
    if y !in s.delays {
      assert !IsReady(s.ready, y);
      ReadyAfterInsert(s.ready, s.nextId, y, x);
    }
  }

  lemma ArriveReady<T(!new)>(s: State<T>, period: nat, now: nat, x: T)
    requires ReadyOk(s)
    ensures ReadyOk(Arrive(s, period, now, x))
  {
    if x in s.delays { ArriveKnownReady(s, period, now, x); }
  }

  lemma {:induction false} AbsorbReady<T(!new)>(s: State<T>, period: nat, now: nat, arrivals: seq<T>)
    requires ReadyOk(s)
    ensures ReadyOk(Absorb(s, period, now, arrivals))
  {
    if arrivals != [] {
      var n := |arrivals| - 1;
      AbsorbReady(s, period, now, arrivals[..n]);
      ArriveReady(Absorb(s, period, now, arrivals[..n]), period, now, arrivals[n]);
    }
  }

  lemma {:induction false} AbsorbWindow<T(!new)>(s: State<T>, period: nat, now: nat, arrivals: seq<T>, x: T)
    requires ReadyOk(s)
    ensures WindowOf(Absorb(s, period, now, arrivals), x) == Opened(WindowOf(s, x), period, now, x in arrivals)
  {
    if arrivals != [] {
      var n := |arrivals| - 1;
      AbsorbWindow(s, period, now, arrivals[..n], x);
      AbsorbReady(s, period, now, arrivals[..n]);
      ArriveWindow(Absorb(s, period, now, arrivals[..n]), period, now, arrivals[n], x);
      assert arrivals == arrivals[..n] + [arrivals[n]];
    }
  }

  lemma ReadyDelivery<T(!new)>(m: State<T>, t: State<T>, out: Outcome<T>, x: T)
    requires ReadyOk(m)
    requires exists id :: id in m.ready && out == Item(m.ready[id]) && t == m.(ready := m.ready - {id})
    ensures t.delays == m.delays
    ensures out == Item(x) ==> IsReady(m.ready, x) && !IsReady(t.ready, x) && x in m.delays
    ensures out != Item(x) ==> IsReady(m.ready, x) == IsReady(t.ready, x)
  {
    if out != Item(x) && IsReady(m.ready, x) {
      var k :| k in m.ready && m.ready[k] == x;
      assert k in t.ready && t.ready[k] == x;
    }
  }

  lemma DeliverWindow<T(!new)>(m: State<T>, period: nat, now: nat, finished: bool, t: State<T>, out: Outcome<T>, x: T)
    requires ReadyOk(m) && Deliver(m, period, now, finished, t, out)
    ensures Moved(WindowOf(m, x), WindowOf(t, x), period, now, out == Item(x))
  {
    if m.ready != map[] { ReadyDelivery(m, t, out, x); }
  }

  lemma PollWindow<T(!new)>(s: State<T>, period: nat, p: Poll<T>, t: State<T>, x: T)
    requires ReadyOk(s) && Polled(s, period, p, t)
    ensures Moved(Opened(WindowOf(s, x), period, p.now, x in p.arrivals),
                  WindowOf(t, x), period, p.now, p.out == Item(x))
  {
    AbsorbWindow(s, period, p.now, p.arrivals, x);
    AbsorbReady(s, period, p.now, p.arrivals);
    DeliverWindow(Absorb(s, period, p.now, p.arrivals), period, p.now, p.finished, t, p.out, x);
  }

  /**
   After `e` emissions, first seen at `first`: every window of the item starts a period after the one
   before and pays for one emission, made or still in `ready`.
   */
  predicate Paced(w: Window, period: nat, now: nat, e: nat, first: Option<nat>) {
    match first
    case None => e == 0 && w == Window(false, None)
    case Some(f) =>
      if w.until.Some? then e + B(w.ready) >= 1 && f + Span(e + B(w.ready), period) <= w.until.value
      else !w.ready && e >= 1 && f + Span(e, period) <= now
  }

  /** A poll at `now`, `clock` being the time of the one before. */
  lemma PacedStep(w: Window, v: Window, period: nat, clock: nat, now: nat, arrived: bool, emitted: bool,
                  e: nat, first: Option<nat>)
    requires Paced(w, period, clock, e, first) && clock <= now
    requires Moved(Opened(w, period, now, arrived), v, period, now, emitted)
    ensures Paced(v, period, now, e + B(emitted), if first.None? && arrived then Some(now) else first)
  {
    assert Span(e + 1, period) == Span(e, period) + period;
    assert Span(0, period) == 0;
  }

  lemma RunWindow<T(!new)>(period: nat, before: Run<T>, p: Poll<T>, t: State<T>, x: T)
    requires IsRun(period, before) && Polled(before.state, period, p, t)
    ensures Moved(Opened(WindowOf(before.state, x), period, p.now, x in p.arrivals), WindowOf(t, x),
                  period, p.now, p.out == Item(x))
  {
    RunInv(period, before);
    PollWindow(before.state, period, p, t, x);
  }

  ghost predicate RunIsPaced<T(!new)>(period: nat, run: Run<T>, x: T) {
    Paced(WindowOf(run.state, x), period, Clock(run), Emissions(run, x), FirstArrival(run, x))
  }

  lemma NextPaced<T(!new)>(period: nat, before: Run<T>, p: Poll<T>, t: State<T>, x: T)
    requires RunIsPaced(period, before, x) && Clock(before) <= p.now
    requires Moved(Opened(WindowOf(before.state, x), period, p.now, x in p.arrivals), WindowOf(t, x),
                   period, p.now, p.out == Item(x))
    ensures RunIsPaced(period, Then(before, p, t), x)
  {
    PacedStep(WindowOf(before.state, x), WindowOf(t, x), period, Clock(before), p.now,
      x in p.arrivals, p.out == Item(x), Emissions(before, x), FirstArrival(before, x));
  }

  lemma {:induction false} RunPaced<T(!new)>(period: nat, run: Run<T>, x: T)
    requires IsRun(period, run)
    ensures RunIsPaced(period, run, x)
  {
    match run
    case Start(_) =>
    case Then(before, p, t) =>
      RunPaced(period, before, x);
      RunWindow(period, before, p, t, x);
      NextPaced(period, before, p, t, x);
  }

  lemma PacedBound(w: Window, period: nat, now: nat, e: nat, first: Option<nat>)
    requires Paced(w, period, now, e, first) && e > 0 && (w.until.Some? ==> w.until.value <= now + period)
    ensures first.Some? && first.value + (e - 1) * period <= now
  {
    SpanIsProduct(e - 1, period);
    assert Span(e, period) == Span(e - 1, period) + period;
    assert Span(e + 1, period) == Span(e, period) + period;
  }

  /**
   The rate bound: by clock `T` at most `1 + (T - first arrival) / period` copies of `x` were
   emitted, however slowly the consumer polls.
   */
  lemma RateBound<T(!new)>(period: nat, run: Run<T>, x: T)
    requires IsRun(period, run) && Emissions(run, x) > 0
    ensures FirstArrival(run, x).Some?
    ensures FirstArrival(run, x).value + (Emissions(run, x) - 1) * period <= Clock(run)
  {
    RunPaced(period, run, x);
    RunInv(period, run);
    PacedBound(WindowOf(run.state, x), period, Clock(run), Emissions(run, x), FirstArrival(run, x));
  }

  // ---------------------------------------------------------------- everything owed is emitted

  /** All that waits to be emitted. */
  function PendingSet<T(==)>(s: State<T>): set<T> {
    s.ready.Values + set x | x in s.delays && s.delays[x].next.Some?
  }

  /** The delay of everything that waits is over. */
  ghost predicate AllDue<T(!new)>(s: State<T>, now: nat) {
    forall x :: x in s.delays && s.delays[x].next.Some? ==> s.delays[x].until <= now
  }

  lemma DrainStep<T(!new)>(s: State<T>, period: nat, p: Poll<T>, t: State<T>, due: nat)
    requires Valid(s, period, p.now) && Polled(s, period, p, t) && p.arrivals == []
    requires AllDue(s, due) && due <= p.now
    ensures PendingSet(t) == PendingSet(s) - (if p.out.Item? then {p.out.item} else {})
    ensures p.out.Item? ==> p.out.item in PendingSet(s)
    ensures !p.out.Item? ==> PendingSet(s) == {}
    ensures AllDue(t, due)
  {
    PollValid(s, period, p, t);
    PendingMembers(s);
    PendingMembers(t);
    DueStays(s, period, p, t, due);
    if !p.out.Item? { NothingPending(s, period, p, t); }
  }

  lemma PendingMembers<T(!new)>(s: State<T>)
    ensures forall y :: y in PendingSet(s) <==> IsPending(s, y)
  {
  }

  lemma DueStays<T(!new)>(s: State<T>, period: nat, p: Poll<T>, t: State<T>, due: nat)
    requires Polled(s, period, p, t) && p.arrivals == [] && AllDue(s, due)
    ensures AllDue(t, due)
  {
  }

  lemma NothingPending<T(!new)>(s: State<T>, period: nat, p: Poll<T>, t: State<T>)
    requires Polled(s, period, p, t) && p.arrivals == [] && !p.out.Item? && AllDue(s, p.now)
    ensures forall y :: !IsPending(s, y)
  {
    forall y ensures !IsPending(s, y) {
      assert !Due(s, p.now, y) && !IsReady(s.ready, y);
    }
  }

  /** `run` goes on from `base` with polls that bring no arrivals, a period or more after `base`. */
  ghost predicate Quiet<T(!new)>(period: nat, base: Run<T>, run: Run<T>) {
    run == base ||
    (run.Then? && run.poll.arrivals == [] && Clock(base) + period <= run.poll.now && Quiet(period, base, run.before))
  }

  function Length<T>(run: Run<T>): nat {
    if run.Start? then 0 else Length(run.before) + 1
  }

  ghost function EmittedSince<T(!new)>(base: Run<T>, run: Run<T>): set<T> {
    if run == base || run.Start? then {}
    else EmittedSince(base, run.before) + if run.poll.out.Item? then {run.poll.out.item} else {}
  }

  /** After `k` quiet polls: what is left and what was emitted make up what was owed, less one per poll. */
  ghost predicate Drained<T(!new)>(period: nat, base: Run<T>, run: Run<T>) {
    && Length(base) <= Length(run)
    && Tally(PendingSet(base.state), PendingSet(run.state), EmittedSince(base, run), Length(run) - Length(base))
    && AllDue(run.state, Clock(base) + period)
  }

  ghost predicate Tally<T>(owed: set<T>, left: set<T>, out: set<T>, k: nat) {
    left !! out && left + out == owed && |left| == Monus(|owed|, k)
  }

  function Monus(a: nat, b: nat): nat { if a <= b then 0 else a - b }

  lemma TallySets<T>(owed: set<T>, left: set<T>, out: set<T>, gone: set<T>, k: nat)
    requires Tally(owed, left, out, k)
    requires gone <= left && |gone| <= 1 && (gone == {} ==> left == {})
    ensures Tally(owed, left - gone, out + gone, k + 1)
  {
    assert |left - gone| == |left| - |gone|;
    assert gone != {} ==> |gone| == 1;
  }

  lemma DrainTally<T(!new)>(base: Run<T>, run: Run<T>, owed: set<T>, left: set<T>, left': set<T>, k: nat)
    requires run.Then? && run != base
    requires Tally(owed, left, EmittedSince(base, run.before), k)
    requires left' == left - (if run.poll.out.Item? then {run.poll.out.item} else {})
    requires if run.poll.out.Item? then run.poll.out.item in left else left == {}
    ensures Tally(owed, left', EmittedSince(base, run), k + 1)
  {
    TallySets(owed, left, EmittedSince(base, run.before), if run.poll.out.Item? then {run.poll.out.item} else {}, k);
  }

  lemma DrainNext<T(!new)>(period: nat, base: Run<T>, run: Run<T>)
    requires run.Then? && run != base && Drained(period, base, run.before)
    requires var left, out := PendingSet(run.before.state), run.poll.out;
      && PendingSet(run.state) == left - (if out.Item? then {out.item} else {})
      && (if out.Item? then out.item in left else left == {})
    requires AllDue(run.state, Clock(base) + period)
    ensures Drained(period, base, run)
  {
    DrainTally(base, run, PendingSet(base.state), PendingSet(run.before.state), PendingSet(run.state),
      Length(run.before) - Length(base));
  }

  /**
   Every arrival is followed by an emission. A period after any point of a run, each poll without
   new arrivals emits one of the items that were owed there, never the same twice, until none is
   left, so as many such polls as there are owed items emit them all.
   */
  lemma {:induction false} OwedItemsDrain<T(!new)>(period: nat, base: Run<T>, run: Run<T>)
    requires IsRun(period, run) && IsRun(period, base) && Quiet(period, base, run)
    ensures Drained(period, base, run)
  {
    if run == base {
      RunInv(period, run);
    } else {
      OwedItemsDrain(period, base, run.before);
      assert Valid(run.before.state, period, run.poll.now) by {
        RunInv(period, run.before);
        LaterValid(run.before.state, period, Clock(run.before), run.poll.now);
      }
      DrainStep(run.before.state, period, run.poll, run.state, Clock(base) + period);
      DrainNext(period, base, run);
    }
  }

  lemma LaterValid<T(!new)>(s: State<T>, period: nat, earlier: nat, now: nat)
    requires Valid(s, period, earlier) && earlier <= now
    ensures Valid(s, period, now)
  {
  }

  // ---------------------------------------------------------------- spacing of emissions

  /** `x` cannot be emitted before `until`. */
  predicate Blocked<T(==)>(s: State<T>, x: T, until: nat) {
    x in s.delays && until <= s.delays[x].until && !IsReady(s.ready, x)
  }

  lemma ArriveBlocked<T(!new)>(s: State<T>, period: nat, now: nat, y: T, x: T, until: nat)
    requires Blocked(s, x, until)
    ensures Blocked(Arrive(s, period, now, y), x, until)
  {
  }

  lemma {:induction false} AbsorbBlocked<T(!new)>(s: State<T>, period: nat, now: nat, arrivals: seq<T>, x: T,
                                                  until: nat)
    requires Blocked(s, x, until)
    ensures Blocked(Absorb(s, period, now, arrivals), x, until)
  {
    if arrivals != [] {
      var n := |arrivals| - 1;
      AbsorbBlocked(s, period, now, arrivals[..n], x, until);
      ArriveBlocked(Absorb(s, period, now, arrivals[..n]), period, now, arrivals[n], x, until);
    }
  }

  lemma DeliverBlocked<T(!new)>(m: State<T>, period: nat, now: nat, finished: bool, t: State<T>, out: Outcome<T>,
                                x: T, until: nat)
    requires Blocked(m, x, until) && now < until && Deliver(m, period, now, finished, t, out)
    ensures Blocked(t, x, until) && out != Item(x)
  {
  }

  ghost predicate Extends<T(!new)>(base: Run<T>, run: Run<T>) {
    run == base || (run.Then? && Extends(base, run.before))
  }

  /** No emission of a blocked item before its time, however the run goes on. */
  lemma {:induction false} BlockedUntil<T(!new)>(period: nat, base: Run<T>, run: Run<T>, x: T, until: nat)
    requires IsRun(period, run) && Extends(base, run) && Blocked(base.state, x, until) && Clock(run) < until
    ensures Blocked(run.state, x, until) && x !in EmittedSince(base, run)
  {
    if run != base {
      var p := run.poll;
      BlockedUntil(period, base, run.before, x, until);
      AbsorbBlocked(run.before.state, period, p.now, p.arrivals, x, until);
      DeliverBlocked(Absorb(run.before.state, period, p.now, p.arrivals), period, p.now,
        p.finished, run.state, p.out, x, until);
    }
  }

  /** An item that became ready in this poll has just been given a full window. */
  lemma {:induction false} NewlyReady<T(!new)>(s: State<T>, period: nat, now: nat, arrivals: seq<T>, x: T)
    requires !IsReady(s.ready, x)
    ensures var m := Absorb(s, period, now, arrivals);
      IsReady(m.ready, x) ==> x in m.delays && m.delays[x].until == now + period
  {
    if arrivals != [] {
      var n := |arrivals| - 1;
      var m, y := Absorb(s, period, now, arrivals[..n]), arrivals[n];
      NewlyReady(s, period, now, arrivals[..n], x);
      if IsReady(Arrive(m, period, now, y).ready, x) && !IsReady(m.ready, x) {
        var id :| id in Arrive(m, period, now, y).ready && Arrive(m, period, now, y).ready[id] == x;
        assert id !in m.ready || m.ready[id] != x;
      }
    }
  }

  lemma EmissionBlocks<T(!new)>(m: State<T>, period: nat, now: nat, finished: bool, t: State<T>, x: T)
    requires ReadyOk(m) && Deliver(m, period, now, finished, t, Item(x))
    ensures x in t.delays && Blocked(t, x, t.delays[x].until)
    ensures t.delays[x].until == now + period || (IsReady(m.ready, x) && t.delays == m.delays)
  {
    if m.ready != map[] { ReadyDelivery(m, t, Item(x), x); }
  }

  /** An emission made without having waited in `ready` leaves a full period. */
  lemma EmissionWindow<T(!new)>(s: State<T>, m: State<T>, period: nat, p: Poll<T>, t: State<T>, x: T)
    requires m == Absorb(s, period, p.now, p.arrivals) && ReadyOk(m)
    requires Deliver(m, period, p.now, p.finished, t, p.out) && p.out == Item(x)
    ensures x in t.delays && Blocked(t, x, t.delays[x].until)
    ensures !IsReady(s.ready, x) ==> t.delays[x].until == p.now + period
  {
    EmissionBlocks(m, period, p.now, p.finished, t, x);
    if !IsReady(s.ready, x) { NewlyReady(s, period, p.now, p.arrivals, x); }
  }

  /**
   Two emissions of the same item are a period apart, unless the first had been waiting in `ready`
   since an earlier poll; then they are still separated by the end of the window it left.
   */
  lemma EmissionsSpaced<T(!new)>(period: nat, base: Run<T>, run: Run<T>, x: T)
    requires IsRun(period, base) && IsRun(period, run) && Extends(base, run)
    requires base.Then? && base.poll.out == Item(x)
    ensures x in base.state.delays
    ensures !IsReady(base.before.state.ready, x) ==> base.state.delays[x].until == base.poll.now + period
    ensures x in EmittedSince(base, run) ==> base.state.delays[x].until <= Clock(run)
  {
    var p := base.poll;
    assert ReadyOk(Absorb(base.before.state, period, p.now, p.arrivals)) by {
      RunInv(period, base.before);
      AbsorbReady(base.before.state, period, p.now, p.arrivals);
    }
    EmissionWindow(base.before.state, Absorb(base.before.state, period, p.now, p.arrivals), period, p, base.state, x);
    if Clock(run) < base.state.delays[x].until { BlockedUntil(period, base, run, x, base.state.delays[x].until); }
  }

  lemma AbsorbTwo(s: State<nat>, period: nat, now: nat, x: nat, y: nat)
    ensures Absorb(s, period, now, [x, y]) == Arrive(Arrive(s, period, now, x), period, now, y)
  {
    assert [x, y][..1] == [x] && [x][..0] == [];
    assert Absorb(s, period, now, [x]) == Arrive(s, period, now, x);
  }

  lemma {:induction false} LowestId(ids: set<nat>) returns (id: nat)
    requires ids != {}
    ensures id in ids && forall k :: k in ids ==> id <= k
    decreases |ids|
  {
    var one :| one in ids;
    id := one;
    if ids - {one} != {} {
      var other := LowestId(ids - {one});
      id := if one <= other then one else other;
    }
    forall k | k in ids ensures id <= k {
      if k != one { assert k in ids - {one}; }
    }
  }

  lemma {:induction false} FirstOf<T(!new)>(s: State<T>, now: nat, items: set<T>) returns (x: T)
    requires items != {} && forall y :: y in items ==> Due(s, now, y)
    ensures x in items && forall y :: y in items ==> ComesBefore(s, now, x, y)
    decreases |items|
  {
    var one :| one in items;
    x := one;
    if items - {one} != {} {
      var other := FirstOf(s, now, items - {one});
      x := if ComesBefore(s, now, one, other) then one else other;
    }
    forall y | y in items ensures ComesBefore(s, now, x, y) {
      if y != one { assert y in items - {one}; }
    }
  }

  function DueSet<T(==)>(s: State<T>, now: nat): set<T> {
    set x | x in s.delays && Due(s, now, x)
  }

  /** A poll while `x` is due emits something; if not `x`, then `x` is still due and fewer items are before it. */
  lemma PollWhileDue<T(!new)>(m: State<T>, period: nat, now: nat, x: T) returns (t: State<T>, out: Outcome<T>)
    requires Due(m, now, x)
    ensures Deliver(m, period, now, false, t, out)
    ensures out == Item(x) || (Due(t, now, x) && |t.ready| + |DueSet(t, now)| < |m.ready| + |DueSet(m, now)|)
  {
    if m.ready != map[] {
      assert m.ready.Keys != {} by { var k :| k in m.ready; assert k in m.ready.Keys; }
      var id := LowestId(m.ready.Keys);
      t, out := m.(ready := m.ready - {id}), Item(m.ready[id]);
      assert DueSet(t, now) == DueSet(m, now);
    } else {
      assert x in DueSet(m, now);
      var y := FirstOf(m, now, DueSet(m, now));
      forall z | Due(m, now, z) ensures ComesBefore(m, now, y, z) { assert z in DueSet(m, now); }
      assert FirstDue(m, now, y);
      t, out := m.(delays := Emitted(m, period, now, y), sleep := None), Item(y);
      EmittedIsNotDue(m, t, period, now, y);
    }
  }

  lemma EmittedIsNotDue<T(!new)>(m: State<T>, t: State<T>, period: nat, now: nat, y: T)
    requires Due(m, now, y) && t == m.(delays := Emitted(m, period, now, y), sleep := None)
    ensures DueSet(t, now) == DueSet(m, now) - {y} && |DueSet(t, now)| < |DueSet(m, now)|
  {
    assert y in DueSet(m, now);
    assert DueSet(t, now) == DueSet(m, now) - {y};
  }

  lemma PollOnce<T(!new)>(period: nat, base: Run<T>, now: nat, arrivals: seq<T>, m: State<T>,
                          x: T) returns (run: Run<T>)
    requires IsRun(period, base) && Clock(base) <= now
    requires m == Absorb(base.state, period, now, arrivals) && Due(m, now, x)
    ensures IsRun(period, run) && run.Then? && run.before == base && run.poll.now == now
    ensures run.poll.out == Item(x) ||
      (Due(run.state, now, x) && |run.state.ready| + |DueSet(run.state, now)| < |m.ready| + |DueSet(m, now)|)
  {
    var t, out := PollWhileDue(m, period, now, x);
    run := Then(base, Poll(now, arrivals, false, out), t);
  }

  /** Polled often enough at the same clock, the adapter emits an item that is due. */
  lemma {:induction false} DueIsEmitted<T(!new)>(period: nat, base: Run<T>, run: Run<T>, x: T) returns (more: Run<T>)
    requires IsRun(period, run) && run.Then? && Extends(base, run) && run != base
    requires run.poll.out == Item(x) || Due(run.state, run.poll.now, x)
    ensures IsRun(period, more) && Extends(base, more) && Clock(more) == Clock(run)
    ensures x in EmittedSince(base, more)
    decreases if run.poll.out == Item(x) then 0 else 1 + |run.state.ready| + |DueSet(run.state, run.poll.now)|
  {
    if run.poll.out == Item(x) {
      more := run;
    } else {
      var next := PollOnce(period, run, run.poll.now, [], run.state, x);
      NotOlder(base, run);
      more := DueIsEmitted(period, base, next, x);
    }
  }

  /** A run that goes on is not the run it started from. */
  lemma {:induction false} NotOlder<T(!new)>(base: Run<T>, run: Run<T>)
    requires Extends(base, run)
    ensures Length(base) <= Length(run)
    ensures forall p, t :: Then(run, p, t) != base
  {
    if run != base { NotOlder(base, run.before); }
    forall p, t ensures Then(run, p, t) != base {
      assert Length(Then(run, p, t)) == Length(run) + 1;
    }
  }

  lemma ArriveInWindow<T(!new)>(s: State<T>, period: nat, now: nat, x: T)
    requires x in s.delays && s.delays[x].until <= now && !IsReady(s.ready, x)
    ensures Due(Absorb(s, period, now, [x]), now, x)
  {
    assert [x][..0] == [] && Absorb(s, period, now, [x]) == Arrive(s, period, now, x);
  }

  /** As soon as the window of `x` is over, one arrival brings it out. */
  lemma NextEmission<T(!new)>(period: nat, base: Run<T>, x: T, now: nat) returns (run: Run<T>)
    requires IsRun(period, base) && Clock(base) <= now
    requires x in base.state.delays && base.state.delays[x].until <= now && !IsReady(base.state.ready, x)
    ensures IsRun(period, run) && Extends(base, run) && Clock(run) == now && x in EmittedSince(base, run)
  {
    ArriveInWindow(base.state, period, now, x);
    var next := PollOnce(period, base, now, [x], Absorb(base.state, period, now, [x]), x);
    NotOlder(base, base);
    run := DueIsEmitted(period, base, next, x);
  }

  lemma StillBlocked<T(!new)>(period: nat, base: Run<T>, x: T)
    requires IsRun(period, base) && base.Then? && base.poll.out == Item(x)
    ensures !IsReady(base.state.ready, x)
  {
    RunInv(period, base);
    assert !Owed(base, x);
  }

  /** `x` is in `ready` since an earlier poll: its window ends less than a period from now. */
  predicate WaitedInReady<T(==)>(s: State<T>, period: nat, now: nat, x: T) {
    IsReady(s.ready, x) && x in s.delays && s.delays[x].until < now + period
  }

  lemma WaitedIff<T(!new)>(period: nat, base: Run<T>, x: T)
    requires IsRun(period, base) && base.Then? && base.poll.out == Item(x) && x in base.state.delays
    ensures base.state.delays[x].until < base.poll.now + period <==>
      WaitedInReady(base.before.state, period, base.poll.now, x)
  {
    assert ReadyOk(base.before.state) by { RunInv(period, base.before); }
    PollWindow(base.before.state, period, base.poll, base.state, x);
    assert IsReady(base.before.state.ready, x) ==> x in base.before.state.delays;
  }

  /**
   Exactly when the next emission of `x` may come within a period of the last one: when the window
   in which the last one was made had opened before that poll, that is, when `x` had been waiting in
   `ready`.
   */
  lemma SpacingIff<T(!new)>(period: nat, base: Run<T>, x: T)
    requires IsRun(period, base) && base.Then? && base.poll.out == Item(x) && period > 0
    ensures x in base.state.delays
    ensures base.state.delays[x].until < base.poll.now + period <==>
      WaitedInReady(base.before.state, period, base.poll.now, x)
    ensures base.state.delays[x].until < base.poll.now + period <==>
      exists run :: IsRun(period, run) && Extends(base, run)
        && x in EmittedSince(base, run) && Clock(run) < base.poll.now + period
  {
    EmissionsSpaced(period, base, base, x);
    WaitedIff(period, base, x);
    var until := base.state.delays[x].until;
    if until < base.poll.now + period {
      StillBlocked(period, base, x);
      var run := NextEmission(period, base, x, if until <= base.poll.now then base.poll.now else until);
      assert Clock(run) < base.poll.now + period;
    }
    forall run | IsRun(period, run) && Extends(base, run) && x in EmittedSince(base, run) ensures until <= Clock(run) {
      EmissionsSpaced(period, base, run, x);
    }
  }

  const BOTH_WAIT: State<nat> := State(map[1 := 1], map[0 := Delay(10, None), 1 := Delay(10, None)], None, 2)

  lemma BothArrive()
    ensures Polled(Init(), 10, Poll(0, [0, 1], false, Item(0)), BOTH_WAIT)
  {
    var a1: State<nat> := State(map[0 := 0], map[0 := Delay(10, None)], None, 1);
    var a2 := BOTH_WAIT.(ready := map[0 := 0, 1 := 1]);
    assert Arrive(Init(), 10, 0, 0) == a1 && Arrive(a1, 10, 0, 1) == a2;
    AbsorbTwo(Init(), 10, 0, 0, 1);
    assert a2.ready - {0} == map[1 := 1];
  }

  lemma SecondIsLate()
    ensures Polled(BOTH_WAIT, 10, Poll(9, [], false, Item(1)), BOTH_WAIT.(ready := map[]))
  {
    assert BOTH_WAIT.ready - {1} == map[];
  }

  lemma ThirdIsEarly(t: State<nat>)
    requires t == State(map[], map[1 := Delay(20, None)], None, 3)
    ensures Polled(BOTH_WAIT.(ready := map[]), 10, Poll(10, [1], false, Item(1)), t)
  {
    var s := BOTH_WAIT.(ready := map[]);
    var m := s.(delays := s.delays[1 := Delay(10, Some(2))], nextId := 3);
    assert [1][..0] == [] && Absorb(s, 10, 10, [1]) == Arrive(s, 10, 10, 1) == m;
    assert FirstDue(m, 10, 1);
    assert Emitted(m, 10, 10, 1) == t.delays;
  }

  /** With a slow consumer the exception is real: period 10, and item 1 is emitted at 9 and at 10. */
  lemma SlowConsumer() returns (run: Run<nat>)
    ensures IsRun(10, run) && run.Then? && run.before.Then?
    ensures run.before.poll == Poll(9, [], false, Item(1)) && run.poll == Poll(10, [1], false, Item(1))
  {
    var t := State(map[], map[1 := Delay(20, None)], None, 3);
    BothArrive();
    SecondIsLate();
    ThirdIsEarly(t);
    var first := Then(Start(Init()), Poll(0, [0, 1], false, Item(0)), BOTH_WAIT);
    assert IsRun(10, first);
    var second := Then(first, Poll(9, [], false, Item(1)), BOTH_WAIT.(ready := map[]));
    assert IsRun(10, second);
    run := Then(second, Poll(10, [1], false, Item(1)), t);
  }

  // ---------------------------------------------------------------- emission whatever arrives

  /** The delay `d` of `x` holds a copy back. */
  predicate Held<T(==)>(s: State<T>, x: T, d: Delay) {
    x in s.delays && s.delays[x] == d && d.next.Some?
  }

  /** A delay that may be served before `d`, now or after an arrival. */
  predicate IsAhead(e: Delay, d: Delay)
    requires d.next.Some?
  {
    e.until < d.until || (e.until == d.until && e.next.Some? && e.next.value < d.next.value)
  }

  function Ahead<T(==)>(s: State<T>, d: Delay): set<T>
    requires d.next.Some?
  {
    set y | y in s.delays && IsAhead(s.delays[y], d)
  }

  lemma ArriveAhead<T(!new)>(s: State<T>, period: nat, now: nat, y: T, x: T, d: Delay)
    requires DelaysOk(s, period, now) && Held(s, x, d)
    ensures var t := Arrive(s, period, now, y); Held(t, x, d) && Ahead(t, d) <= Ahead(s, d)
  {
  }

  /** Nothing that arrives gets ahead of what is held back. */
  lemma {:induction false} AbsorbAhead<T(!new)>(s: State<T>, period: nat, now: nat, arrivals: seq<T>, x: T, d: Delay)
    requires Valid(s, period, now) && Held(s, x, d)
    ensures var m := Absorb(s, period, now, arrivals); Held(m, x, d) && Ahead(m, d) <= Ahead(s, d)
  {
    if arrivals != [] {
      var n := |arrivals| - 1;
      AbsorbAhead(s, period, now, arrivals[..n], x, d);
      AbsorbValid(s, period, now, arrivals[..n]);
      ArriveAhead(Absorb(s, period, now, arrivals[..n]), period, now, arrivals[n], x, d);
    }
  }

  /** The poll delivers from the delays, and that of `d` is over. */
  predicate Open<T(==)>(m: State<T>, now: nat, d: Delay) {
    m.ready == map[] && d.until <= now
  }

  /** Exactly when a held back item is emitted by a poll. */
  lemma HeldEmittedIff<T(!new)>(m: State<T>, period: nat, now: nat, finished: bool, t: State<T>, out: Outcome<T>,
                                x: T, d: Delay)
    requires Valid(m, period, now) && Held(m, x, d) && Deliver(m, period, now, finished, t, out)
    ensures out == Item(x) <==> Open(m, now, d) && forall y :: Due(m, now, y) ==> !IsAhead(m.delays[y], d)
  {
    if m.ready == map[] && d.until <= now {
      assert Due(m, now, x);
      var y :| FirstDue(m, now, y) && out == Item(y);
      assert y != x ==> ComesBefore(m, now, y, x) && m.delays[y].next != d.next;
      assert forall z :: Due(m, now, z) ==> ComesBefore(m, now, y, z);
    } else if m.ready != map[] {
      assert !IsReady(m.ready, x);
    }
  }

  lemma DeliverHeld<T(!new)>(m: State<T>, period: nat, now: nat, finished: bool, t: State<T>, out: Outcome<T>, x: T,
                             d: Delay)
    requires Valid(m, period, now) && Held(m, x, d) && Deliver(m, period, now, finished, t, out) && out != Item(x)
    ensures Held(t, x, d) && Ahead(t, d) <= Ahead(m, d)
  {
    if m.ready == map[] && exists y :: Due(m, now, y) {
      var y :| FirstDue(m, now, y) && out == Item(y) && t == m.(delays := Emitted(m, period, now, y), sleep := None);
      assert t.delays[y] == Delay(now + period, None) && d.until <= now + period;
    } else if m.ready == map[] {
      assert !Due(m, now, x);
    }
  }

  /** An open poll that emits something else has one less ahead. */
  lemma OpenShrinks<T(!new)>(m: State<T>, period: nat, now: nat, finished: bool, t: State<T>, out: Outcome<T>, x: T,
                             d: Delay)
    requires Valid(m, period, now) && Held(m, x, d) && Deliver(m, period, now, finished, t, out) && out != Item(x)
    requires Open(m, now, d)
    ensures Ahead(t, d) <= Ahead(m, d) && |Ahead(t, d)| < |Ahead(m, d)|
  {
    DeliverHeld(m, period, now, finished, t, out, x, d);
    assert Due(m, now, x);
    var y :| FirstDue(m, now, y) && out == Item(y) && t == m.(delays := Emitted(m, period, now, y), sleep := None);
    assert ComesBefore(m, now, y, x) && m.delays[y].next != d.next;
    assert y in Ahead(m, d) && y !in Ahead(t, d);
    SmallerSet(Ahead(t, d), Ahead(m, d), y);
  }

  lemma SmallerSet<T>(a: set<T>, b: set<T>, y: T)
    requires a <= b && y in b && y !in a
    ensures |a| < |b|
  {
    assert a <= b - {y};
    SubsetCard(a, b - {y});
  }

  lemma {:induction false} SubsetCard<T>(a: set<T>, b: set<T>)
    requires a <= b
    ensures |a| <= |b|
    decreases |a|
  {
    if a != {} {
      var x :| x in a;
      SubsetCard(a - {x}, b - {x});
    }
  }

  /** The polls since `base`, from clock `until` on, that found nothing in `ready` after the arrivals. */
  ghost function OpenPolls<T(!new)>(period: nat, base: Run<T>, run: Run<T>, d: Delay): nat {
    if run == base || run.Start? then 0
    else
      OpenPolls(period, base, run.before, d) +
        B(Open(Absorb(run.before.state, period, run.poll.now, run.poll.arrivals), run.poll.now, d))
  }

  /** `x` still waits, and each open poll has taken one of those that were ahead of it. */
  ghost predicate StillHeld<T(!new)>(period: nat, base: Run<T>, run: Run<T>, x: T, d: Delay)
    requires d.next.Some?
  {
    Held(run.state, x, d) && OpenPolls(period, base, run, d) + |Ahead(run.state, d)| <= |Ahead(base.state, d)|
  }

  lemma HeldStep<T(!new)>(s: State<T>, m: State<T>, period: nat, p: Poll<T>, t: State<T>, x: T, d: Delay)
    requires Valid(s, period, p.now) && Held(s, x, d) && m == Absorb(s, period, p.now, p.arrivals)
    requires Deliver(m, period, p.now, p.finished, t, p.out) && p.out != Item(x)
    ensures Held(t, x, d) && |Ahead(t, d)| + B(Open(m, p.now, d)) <= |Ahead(s, d)|
  {
    AbsorbAhead(s, period, p.now, p.arrivals, x, d);
    SubsetCard(Ahead(m, d), Ahead(s, d));
    assert Valid(m, period, p.now) by { AbsorbValid(s, period, p.now, p.arrivals); }
    DeliverHeld(m, period, p.now, p.finished, t, p.out, x, d);
    SubsetCard(Ahead(t, d), Ahead(m, d));
    if Open(m, p.now, d) { OpenShrinks(m, period, p.now, p.finished, t, p.out, x, d); }
  }

  lemma {:induction false} HeldWaits<T(!new)>(period: nat, base: Run<T>, run: Run<T>, x: T, d: Delay)
    requires IsRun(period, run) && Extends(base, run) && Held(base.state, x, d)
    ensures x in EmittedSince(base, run) || StillHeld(period, base, run, x, d)
  {
    if run != base {
      HeldWaits(period, base, run.before, x, d);
      if x !in EmittedSince(base, run) {
        assert Valid(run.before.state, period, run.poll.now) by {
          RunInv(period, run.before);
          LaterValid(run.before.state, period, Clock(run.before), run.poll.now);
        }
        HeldStep(run.before.state, Absorb(run.before.state, period, run.poll.now, run.poll.arrivals), period,
          run.poll, run.state, x, d);
      }
    }
  }

  /** Only an open poll emits what is held back. */
  lemma {:induction false} NoneWithoutOpen<T(!new)>(period: nat, base: Run<T>, run: Run<T>, x: T, d: Delay)
    requires IsRun(period, run) && Extends(base, run) && Held(base.state, x, d) && OpenPolls(period, base, run, d) == 0
    ensures x !in EmittedSince(base, run)
  {
    if run != base {
      NoneWithoutOpen(period, base, run.before, x, d);
      HeldWaits(period, base, run.before, x, d);
      var s, p := run.before.state, run.poll;
      assert Valid(s, period, p.now) by {
        RunInv(period, run.before);
        LaterValid(s, period, Clock(run.before), p.now);
      }
      ClosedPoll(s, Absorb(s, period, p.now, p.arrivals), period, p, run.state, x, d);
    }
  }

  lemma ClosedPoll<T(!new)>(s: State<T>, m: State<T>, period: nat, p: Poll<T>, t: State<T>, x: T, d: Delay)
    requires Valid(s, period, p.now) && Held(s, x, d) && m == Absorb(s, period, p.now, p.arrivals)
    requires Deliver(m, period, p.now, p.finished, t, p.out) && !Open(m, p.now, d)
    ensures p.out != Item(x)
  {
    AbsorbAhead(s, period, p.now, p.arrivals, x, d);
    assert Valid(m, period, p.now) by { AbsorbValid(s, period, p.now, p.arrivals); }
    HeldEmittedIff(m, period, p.now, p.finished, t, p.out, x, d);
  }

  /**
   Whatever arrives meanwhile, an item that is held back is emitted at the latest by the open poll
   whose number is one more than that of the delays ahead of it, and not before the first open poll.
   */
  lemma HeldIsEmitted<T(!new)>(period: nat, base: Run<T>, run: Run<T>, x: T)
    requires IsRun(period, run) && Extends(base, run)
    requires x in base.state.delays && base.state.delays[x].next.Some?
    ensures var d := base.state.delays[x];
      && (OpenPolls(period, base, run, d) > |Ahead(base.state, d)| ==> x in EmittedSince(base, run))
      && (x in EmittedSince(base, run) ==> OpenPolls(period, base, run, d) > 0)
  {
    var d := base.state.delays[x];
    HeldWaits(period, base, run, x, d);
    if OpenPolls(period, base, run, d) == 0 { NoneWithoutOpen(period, base, run, x, d); }
  }

  /** Exactly when a poll is open: nothing was in `ready`, and every arrival has its window still running. */
  lemma {:induction false} OpenIff<T(!new)>(s: State<T>, period: nat, now: nat, arrivals: seq<T>)
    requires ReadyOk(s)
    ensures var m := Absorb(s, period, now, arrivals);
      && (m.ready == map[] <==> s.ready == map[] && forall y :: y in arrivals ==> y in s.delays)
      && (forall y :: y in m.delays <==> y in s.delays || y in arrivals)
  {
    if arrivals != [] {
      var n := |arrivals| - 1;
      var m := Absorb(s, period, now, arrivals[..n]);
      OpenIff(s, period, now, arrivals[..n]);
      AbsorbReady(s, period, now, arrivals[..n]);
      assert arrivals == arrivals[..n] + [arrivals[n]];
      if arrivals[n] !in m.delays { assert m.nextId in Arrive(m, period, now, arrivals[n]).ready; }
    }
  }

  function Lower<T>(ready: map<nat, T>, id: nat): set<nat> {
    set k | k in ready && k < id
  }

  lemma {:induction false} AbsorbLower<T(!new)>(s: State<T>, period: nat, now: nat, arrivals: seq<T>, id: nat)
    requires ReadyOk(s) && id in s.ready
    ensures var m := Absorb(s, period, now, arrivals);
      id in m.ready && m.ready[id] == s.ready[id] && Lower(m.ready, id) == Lower(s.ready, id)
  {
    if arrivals != [] {
      var n := |arrivals| - 1;
      AbsorbLower(s, period, now, arrivals[..n], id);
      AbsorbReady(s, period, now, arrivals[..n]);
    }
  }

  lemma RemoveLower<T(!new)>(ready: map<nat, T>, id: nat, k: nat)
    requires id in ready && k in ready && k < id
    ensures id in ready - {k} && (ready - {k})[id] == ready[id] && |Lower(ready - {k}, id)| + 1 == |Lower(ready, id)|
  {
    assert k in Lower(ready, id) && Lower(ready - {k}, id) == Lower(ready, id) - {k};
  }

  lemma LowestOut<T(!new)>(m: State<T>, period: nat, now: nat, finished: bool, t: State<T>,
                           out: Outcome<T>) returns (k: nat)
    requires m.ready != map[] && Deliver(m, period, now, finished, t, out)
    ensures k in m.ready && (forall j :: j in m.ready ==> k <= j) && out == Item(m.ready[k]) && t.ready == m.ready - {k}
  {
    k :| k in m.ready && (forall j :: j in m.ready ==> k <= j) &&
         out == Item(m.ready[k]) && t == m.(ready := m.ready - {k});
  }

  lemma NextInReady<T(!new)>(ready: map<nat, T>, ready': map<nat, T>, k: nat, id: nat)
    requires id in ready && k in ready && k <= id && ready' == ready - {k} && ready[k] != ready[id]
    ensures id in ready' && ready'[id] == ready[id] && |Lower(ready', id)| + 1 == |Lower(ready, id)|
  {
    RemoveLower(ready, id, k);
  }

  /** What is in `ready` goes out in order: after as many polls as there are lower ids, the next one emits it. */
  lemma {:induction false} ReadyIsEmitted<T(!new)>(period: nat, base: Run<T>, run: Run<T>, id: nat)
    requires IsRun(period, run) && Extends(base, run) && id in base.state.ready
    ensures var x := base.state.ready[id];
      || x in EmittedSince(base, run)
      || (id in run.state.ready && run.state.ready[id] == x
          && Length(run) + |Lower(run.state.ready, id)| == Length(base) + |Lower(base.state.ready, id)|)
    ensures Length(run) > Length(base) + |Lower(base.state.ready, id)| ==>
      base.state.ready[id] in EmittedSince(base, run)
  {
    if run != base {
      var s, p := run.before.state, run.poll;
      ReadyIsEmitted(period, base, run.before, id);
      if base.state.ready[id] !in EmittedSince(base, run) {
        assert ReadyOk(s) by { RunInv(period, run.before); }
        AbsorbLower(s, period, p.now, p.arrivals, id);
        var m := Absorb(s, period, p.now, p.arrivals);
        var k := LowestOut(m, period, p.now, p.finished, run.state, p.out);
        NextInReady(m.ready, run.state.ready, k, id);
      }
    }
  }

  // ---------------------------------------------------------------- starvation

  /** A poll with one new item emits that item, however long another one has been due. */
  lemma NewcomerFirst<T(!new)>(period: nat, run: Run<T>, now: nat, x: T, y: T) returns (next: Run<T>)
    requires IsRun(period, run) && Clock(run) <= now && run.state.ready == map[]
    requires Due(run.state, now, x) && y !in run.state.delays
    ensures next.Then? && next.before == run && next.poll == Poll(now, [y], false, Item(y)) && IsRun(period, next)
    ensures next.state.ready == map[] && Due(next.state, now, x)
    ensures next.state.delays.Keys == run.state.delays.Keys + {y}
  {
    var s := run.state;
    assert [y][..0] == [] && Absorb(s, period, now, [y]) == Arrive(s, period, now, y);
    var m := Arrive(s, period, now, y);
    assert m.ready == map[s.nextId := y];
    var t := m.(ready := m.ready - {s.nextId});
    assert m.ready[s.nextId] == y && m.ready != map[];
    next := Then(run, Poll(now, [y], false, Item(y)), t);
  }

  /**
   Without open polls the promise fails: a due item is passed over in `n` polls, for any `n`, if each
   of them brings a new one.
   */
  lemma {:induction false} Starvation(period: nat, base: Run<nat>, now: nat, x: nat, n: nat) returns (run: Run<nat>)
    requires IsRun(period, base) && Clock(base) <= now && base.state.ready == map[] && Due(base.state, now, x)
    ensures IsRun(period, run) && Extends(base, run) && Length(run) == Length(base) + n && Clock(run) <= now
    ensures run.state.ready == map[] && Due(run.state, now, x)
    ensures x !in EmittedSince(base, run)
    ensures n > 0 ==> Clock(run) == now
  {
    if n == 0 {
      run := base;
    } else {
      var before := Starvation(period, base, now, x, n - 1);
      var y := Unused(before.state.delays.Keys);
      run := NewcomerFirst(period, before, now, x, y);
      NotOlder(base, before);
    }
  }

  lemma {:induction false} Unused(items: set<nat>) returns (y: nat)
    ensures y !in items && forall k :: k in items ==> k < y
    decreases |items|
  {
    if items == {} {
      y := 0;
    } else {
      var k :| k in items;
      var z := Unused(items - {k});
      y := if z <= k then k + 1 else z;
      forall j | j in items ensures j < y {
        if j != k { assert j in items - {k}; }
      }
    }
  }

  const ZERO_OUT: State<nat> := State(map[], map[0 := Delay(10, None)], None, 1)
  const ZERO_HELD: State<nat> := State(map[], map[0 := Delay(10, Some(1))], Some(10), 2)

  lemma ZeroArrives()
    ensures Polled(Init(), 10, Poll(0, [0], false, Item(0)), ZERO_OUT)
  {
    var m := ZERO_OUT.(ready := map[0 := 0]);
    assert [0][..0] == [] && Absorb(Init(), 10, 0, [0]) == Arrive(Init(), 10, 0, 0) == m;
    assert m.ready - {0} == map[];
  }

  lemma ZeroIsHeld()
    ensures Polled(ZERO_OUT, 10, Poll(1, [0], false, Pending), ZERO_HELD)
  {
    var m := ZERO_HELD.(sleep := None);
    assert [0][..0] == [] && Absorb(ZERO_OUT, 10, 1, [0]) == Arrive(ZERO_OUT, 10, 1, 0) == m;
    assert m.delays[0].until == 10;
  }

  /** Such a run exists from the start: item 0 arrives twice and is held back until 10. */
  lemma StarvationStart() returns (base: Run<nat>)
    ensures IsRun(10, base) && Clock(base) == 1 && base.state.ready == map[] && Due(base.state, 10, 0) && Owed(base, 0)
  {
    ZeroArrives();
    ZeroIsHeld();
    var first := Then(Start(Init()), Poll(0, [0], false, Item(0)), ZERO_OUT);
    assert IsRun(10, first);
    base := Then(first, Poll(1, [0], false, Pending), ZERO_HELD);
  }

  // ---------------------------------------------------------------- the adapter

  class Throttler<T(!new, ==)> {
    const period: nat
    var ready: map<nat, T>
    var delays: map<T, Delay>
    var sleep: Option<nat>
    var nextId: nat

    ghost function View(): State<T>
      reads this
    {
      State(ready, delays, sleep, nextId)
    }

    constructor (period: nat)
      ensures this.period == period && View() == Init<T>() && Valid(View(), period, 0)
    {
      this.period := period;
      ready, delays, sleep, nextId := map[], map[], None, 0;
    }

    /** Scan of the values of `ready`. */
    method Contains(x: T) returns (found: bool)
      ensures found == IsReady(ready, x)
    {
      var rest := ready.Keys;
      while rest != {}
        invariant rest <= ready.Keys
        invariant forall id :: id in ready && ready[id] == x ==> id in rest
        decreases rest
      {
        var id :| id in rest;
        if ready[id] == x { return true; }
        rest := rest - {id};
      }
      return false;
    }

    method Take(now: nat, x: T)
      modifies this
      ensures View() == Arrive(old(View()), period, now, x)
    {
      var isReady := Contains(x);
      if x in delays {
        if !isReady && delays[x].next.None? {
          delays := delays[x := delays[x].(next := Some(nextId))];
          nextId := nextId + 1;
        }
      } else {
        if !isReady { ready := ready[nextId := x]; }
        nextId := nextId + 1;
        delays := delays[x := Delay(now + period, None)];
      }
    }

    /** The entry with the least `(until, next)`; an absent `next` comes before any present one. */
    method First() returns (first: T)
      requires delays != map[]
      ensures first in delays && forall y :: y in delays ==> !Before(delays[y], delays[first])
    {
      var rest := delays.Keys;
      first :| first in rest;
      rest := rest - {first};
      while rest != {}
        invariant rest <= delays.Keys && first in delays
        invariant forall y :: y in delays && y !in rest ==> !Before(delays[y], delays[first])
        decreases rest
      {
        var y :| y in rest;
        if Before(delays[y], delays[first]) { first := y; }
        rest := rest - {y};
      }
    }

    method FirstReady() returns (id: nat)
      requires ready != map[]
      ensures id in ready && forall k :: k in ready ==> id <= k
    {
      var rest := ready.Keys;
      id :| id in rest;
      rest := rest - {id};
      while rest != {}
        invariant rest <= ready.Keys && id in ready
        invariant forall k :: k in ready && k !in rest ==> id <= k
        decreases rest
      {
        var k :| k in rest;
        if k < id { id := k; }
        rest := rest - {k};
      }
    }

    method PollNext(now: nat, arrivals: seq<T>, finished: bool) returns (out: Outcome<T>)
      requires Valid(View(), period, now)
      modifies this
      ensures PollSpec(old(View()), period, now, arrivals, finished, View(), out)
      ensures Valid(View(), period, now)
    {
      ghost var s := View();
      var i := 0;
      while i < |arrivals|
        invariant 0 <= i <= |arrivals|
        invariant View() == Absorb(s, period, now, arrivals[..i])
      {
        Take(now, arrivals[i]);
        i := i + 1;
        assert arrivals[..i][..i - 1] == arrivals[..i - 1];
      }
      assert arrivals[..i] == arrivals;
      ghost var m := View();
      AbsorbValid(s, period, now, arrivals);
      if ready != map[] {
        var id := FirstReady();
        out := Item(ready[id]);
        ready := ready - {id};
      } else {
        out := Emit(now, finished);
      }
      DeliverValid(m, period, now, finished, View(), out);
    }

    /** The second loop, once `ready` is empty: at a fixed clock it comes to an end. */
    method Emit(now: nat, finished: bool) returns (out: Outcome<T>)
      requires Valid(View(), period, now) && ready == map[]
      modifies this
      ensures Deliver(old(View()), period, now, finished, View(), out)
    {
      ghost var m := View();
      SweepStart(m, period, now);
      var result: Option<Outcome<T>> := None;
      while result.None?
        invariant if result.None? then Sweeping(m, View(), now)
                  else Deliver(m, period, now, finished, View(), result.value)
        decreases B(result.None?), |delays|, B(sleep.None?)
      {
        result := Advance(now, finished, m);
      }
      out := result.value;
    }

    /** One iteration: done, or one idle entry fewer, or the sleep armed. */
    method Advance(now: nat, finished: bool, ghost m: State<T>) returns (result: Option<Outcome<T>>)
      requires Sweeping(m, View(), now) && m.ready == map[]
      modifies this
      ensures result.Some? ==> Deliver(m, period, now, finished, View(), result.value)
      ensures result.None? ==> Sweeping(m, View(), now)
      ensures result.None? ==>
        |delays| < |old(delays)| || (|delays| == |old(delays)| && old(sleep).None? && sleep.Some?)
    {
      if sleep.Some? {
        if now < sleep.value {
          SweptIdle(m, View(), period, now, finished);
          return Some(Pending);
        }
        sleep := None;
      }
      if delays == map[] {
        SweptIdle(m, View(), period, now, finished);
        return Some(if finished then End else Pending);
      }
      var first := First();
      if delays[first].until <= now {
        result := Expire(now, finished, first, m);
      } else {
        SweepSleep(m, View(), now, first);
        sleep := Some(delays[first].until);
        result := None;
      }
    }

    /** The delay of `first` is over: emit what it holds back, or forget it. */
    method Expire(now: nat, finished: bool, first: T, ghost m: State<T>) returns (result: Option<Outcome<T>>)
      requires Sweeping(m, View(), now) && m.ready == map[] && sleep.None? && first in delays
      requires forall y :: y in delays ==> !Before(delays[y], delays[first])
      requires delays[first].until <= now
      modifies this`delays
      ensures result.Some? ==> Deliver(m, period, now, finished, View(), result.value)
      ensures result.None? ==> Sweeping(m, View(), now) && |delays| < |old(delays)|
    {
      if delays[first].next.Some? {
        SweptItem(m, View(), period, now, finished, first);
        delays := delays[first := Delay(now + period, None)];
        result := Some(Item(first));
      } else {
        SweepOne(m, View(), now, first);
        Forget(first);
        result := None;
      }
    }

    method Forget(first: T)
      requires first in delays
      modifies this`delays
      ensures View() == old(View()).(delays := old(delays) - {first}) && |delays| < |old(delays)|
    {
      ghost var keys := delays.Keys;
      delays := delays - {first};
      assert delays.Keys == keys - {first};
    }
  }

  predicate Before(a: Delay, b: Delay) {
    || a.until < b.until
    || (a.until == b.until && b.next.Some? && (a.next.None? || a.next.value < b.next.value))
  }

  function Remaining<T(==)>(delays: map<T, Delay>, keys: set<T>): map<T, Delay> {
    map x | x in delays && x in keys :: delays[x]
  }

  /**
   The loop has swept `m` down to `c`: what is gone was idle, over, and no later than what is left.
   */
  ghost predicate Sweeping<T(!new)>(m: State<T>, c: State<T>, now: nat) {
    && c.ready == m.ready && c.nextId == m.nextId
    && c.delays.Keys <= m.delays.Keys && c.delays == Remaining(m.delays, c.delays.Keys)
    && (forall x, y :: x in m.delays && x !in c.delays && y in c.delays ==> m.delays[x].until <= c.delays[y].until)
    && (forall x :: x in m.delays && x !in c.delays ==> m.delays[x].next.None? && m.delays[x].until <= now)
    && (c.sleep.Some? ==> Earliest(c.delays, c.sleep.value))
  }

  lemma SweepStart<T(!new)>(m: State<T>, period: nat, now: nat)
    requires Valid(m, period, now)
    ensures Sweeping(m, m, now)
  {
    assert m.delays == Remaining(m.delays, m.delays.Keys);
  }

  lemma SweepOne<T(!new)>(m: State<T>, c: State<T>, now: nat, first: T)
    requires Sweeping(m, c, now) && c.sleep.None? && first in c.delays
    requires forall y :: y in c.delays ==> !Before(c.delays[y], c.delays[first])
    requires c.delays[first].until <= now && c.delays[first].next.None?
    ensures Sweeping(m, c.(delays := c.delays - {first}), now)
  {
    var d := c.(delays := c.delays - {first});
    assert d.delays == Remaining(m.delays, d.delays.Keys);
  }

  lemma SweepSleep<T(!new)>(m: State<T>, c: State<T>, now: nat, first: T)
    requires Sweeping(m, c, now) && first in c.delays
    requires forall y :: y in c.delays ==> !Before(c.delays[y], c.delays[first])
    ensures Sweeping(m, c.(sleep := Some(c.delays[first].until)), now)
    ensures c.sleep.Some? ==> c.sleep.value == c.delays[first].until
  {
  }

  lemma SweptItem<T(!new)>(m: State<T>, c: State<T>, period: nat, now: nat, finished: bool, first: T)
    requires Sweeping(m, c, now) && m.ready == map[] && c.sleep.None? && first in c.delays
    requires forall y :: y in c.delays ==> !Before(c.delays[y], c.delays[first])
    requires c.delays[first].until <= now && c.delays[first].next.Some?
    ensures Deliver(m, period, now, finished, c.(delays := c.delays[first := Delay(now + period, None)]), Item(first))
  {
    assert Due(m, now, first);
    assert FirstDue(m, now, first) by {
      forall y | Due(m, now, y)
        ensures ComesBefore(m, now, first, y)
      {
        assert y in c.delays;
      }
    }
    var t := c.(delays := c.delays[first := Delay(now + period, None)]);
    forall y ensures y in t.delays <==> y in Emitted(m, period, now, first) {}
    assert t.delays == Emitted(m, period, now, first);
    assert t == m.(delays := Emitted(m, period, now, first), sleep := None);
  }

  lemma SweptIdle<T(!new)>(m: State<T>, c: State<T>, period: nat, now: nat, finished: bool)
    requires Sweeping(m, c, now) && m.ready == map[]
    requires (c.delays == map[] && c.sleep.None?) || (c.sleep.Some? && now < c.sleep.value)
    ensures Deliver(m, period, now, finished, c, if c.delays == map[] && finished then End else Pending)
  {
    assert forall x :: x in c.delays ==> now < c.delays[x].until;
    assert !(exists x :: Due(m, now, x));
    var kept := map y | y in m.delays && now < m.delays[y].until :: m.delays[y];
    forall y ensures y in c.delays <==> y in kept {}
    assert c.delays == kept;
  }
}
