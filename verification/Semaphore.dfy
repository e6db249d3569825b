/**
 The asynchronous binary semaphore (bindings/cpp/ouisync/semaphore.hpp).

 Calls of `get_permit` are numbered in order. A request is queued, posted (its handler waits to be
 run by the executor) or holds a live permit; `served` logs the order in which requests left the
 queue or were let in directly.
 */
module Semaphore {

  type Request = nat

  /** `live[k]` says whether the permit of request k came without an error code. */
  datatype State = State(
    next: Request,
    hasActive: bool,
    destroyed: bool,
    queue: seq<Request>,
    posted: seq<Request>,
    live: map<Request, bool>,
    served: seq<Request>)

  const INIT := State(0, false, false, [], [], map[], [])

  datatype Action =
    | GetPermit
    | RunPosted(index: nat)         // the executor runs one of the posted handlers
    | DropPermit(request: Request)  // a live permit is destroyed
    | Destroy                       // the semaphore is destroyed

  /** `serve_waiter` on the front of the queue. */
  function ServeFront(s: State): State
    requires s.queue != []
  {
    s.(queue := s.queue[1..], posted := s.posted + [s.queue[0]], served := s.served + [s.queue[0]])
  }

  function Step(s: State, a: Action): State {
    match a
    case GetPermit =>
      if s.hasActive then s.(next := s.next + 1, queue := s.queue + [s.next])
      else s.(next := s.next + 1, hasActive := true, live := s.live[s.next := true], served := s.served + [s.next])
    case RunPosted(i) =>
      if i >= |s.posted| then s
      else s.(posted := s.posted[..i] + s.posted[i + 1..], live := s.live[s.posted[i] := !s.destroyed])
    case DropPermit(k) =>
      if k !in s.live then s
      else
        var t := s.(live := s.live - {k});
        if s.queue == [] then t.(hasActive := false) else ServeFront(t)
    case Destroy =>
      if s.destroyed then s
      else s.(destroyed := true, queue := [], posted := s.posted + s.queue, served := s.served + s.queue)
  }

  function Exec(run: seq<Action>): State {
    if run == [] then INIT else Step(Exec(run[..|run| - 1]), run[|run| - 1])
  }

  // ---------------------------------------------------------------- every run

  /** All requests so far, in the order of the calls. */
  function Requests(n: nat): seq<Request> {
    seq(n, i => i)
  }

  /** Nobody overtakes, and whoever waits has somebody to wait for. */
  predicate Inv(s: State) {
    && s.served + s.queue == Requests(s.next)
    && (s.queue != [] ==> s.hasActive)
    && (s.hasActive ==> s.posted != [] || s.live != map[])
  }

  /** Before the destruction, one holder or one handoff in flight exactly while `hasActive` is set. */
  predicate Exclusive(s: State) {
    if !s.hasActive then s.posted == [] && s.live == map[]
    else if s.posted != [] then |s.posted| == 1 && s.live == map[]
    else s.live != map[] && OneHolder(s.live)
  }

  predicate OneHolder(live: map<Request, bool>) {
    (forall j, k :: j in live && k in live ==> j == k) && (forall k :: k in live ==> live[k])
  }

  predicate AtMostOneSuccess(s: State) {
    forall j, k :: j in s.live && k in s.live && s.live[j] && s.live[k] ==> j == k
  }

  lemma ServedInOrder(s: State, a: Action)
    requires s.served + s.queue == Requests(s.next) && (s.queue != [] ==> s.hasActive)
    ensures var t := Step(s, a); t.served + t.queue == Requests(t.next)
  {
    var t := Step(s, a);
    if a.GetPermit? {
      assert Requests(t.next) == Requests(s.next) + [s.next];
      if !s.hasActive { assert s.served == s.served + s.queue; }
    } else if a.DropPermit? && s.queue != [] {
      assert s.queue == [s.queue[0]] + s.queue[1..];
    }
  }

  lemma StepInv(s: State, a: Action)
    requires Inv(s)
    ensures Inv(Step(s, a))
  {
    ServedInOrder(s, a);
    if a.RunPosted? && a.index < |s.posted| {
      assert s.posted[a.index] in Step(s, a).live;
    } else if a.GetPermit? && !s.hasActive {
      assert s.next in Step(s, a).live;
    }
  }

  lemma {:induction false} ExecInv(run: seq<Action>)
    ensures Inv(Exec(run))
  {
    if run != [] {
      ExecInv(run[..|run| - 1]);
      StepInv(Exec(run[..|run| - 1]), run[|run| - 1]);
    }
  }

  /** Requests are let in in the order of the calls, none skipped, in every run. */
  lemma Fifo(run: seq<Action>, i: nat)
    requires i < |Exec(run).served|
    ensures Exec(run).served[i] == i
    ensures |Exec(run).served| + |Exec(run).queue| == Exec(run).next
  {
    ExecInv(run);
    var s := Exec(run);
    assert (s.served + s.queue)[i] == s.served[i];
  }

  lemma WaitersAreNotStranded(run: seq<Action>)
    ensures var s := Exec(run); s.queue != [] ==> s.hasActive && (s.posted != [] || s.live != map[])
  {
    ExecInv(run);
  }

  // ---------------------------------------------------------------- exclusion

  /** Permits are asked for only while the semaphore exists. */
  predicate Prompt(run: seq<Action>) {
    run != [] ==> Prompt(run[..|run| - 1]) && !(run[|run| - 1].GetPermit? && Exec(run[..|run| - 1]).destroyed)
  }

  lemma StepExclusive(s: State, a: Action)
    requires Inv(s) && !s.destroyed && Exclusive(s) && !a.Destroy?
    ensures Exclusive(Step(s, a))
  {
    match a
    case GetPermit =>
      if !s.hasActive { assert s.next in Step(s, a).live; }
    case RunPosted(i) =>
      if i < |s.posted| {
        assert s.posted[..i] + s.posted[i + 1..] == [];
        assert s.posted[i] in Step(s, a).live;
      }
    case DropPermit(k) =>
      if k in s.live { assert s.live - {k} == map[]; }
    case Destroy =>
  }

  lemma StepSuccesses(s: State, a: Action)
    requires s.destroyed && AtMostOneSuccess(s) && !a.GetPermit?
    ensures AtMostOneSuccess(Step(s, a)) && Step(s, a).destroyed
  {
  }

  lemma {:induction false} ExecExclusive(run: seq<Action>)
    requires Prompt(run)
    ensures !Exec(run).destroyed ==> Exclusive(Exec(run))
    ensures AtMostOneSuccess(Exec(run))
  {
    if run != [] {
      var before, a := run[..|run| - 1], run[|run| - 1];
      ExecExclusive(before);
      ExecInv(before);
      if Exec(before).destroyed {
        StepSuccesses(Exec(before), a);
      } else if !a.Destroy? {
        StepExclusive(Exec(before), a);
      }
    }
  }

  /** At most one successful permit exists, and none beside a handoff in flight. */
  lemma MutualExclusion(run: seq<Action>, j: Request, k: Request)
    requires Prompt(run)
    requires j in Exec(run).live && Exec(run).live[j]
    ensures k in Exec(run).live && Exec(run).live[k] ==> k == j
    ensures !Exec(run).destroyed ==> Exec(run).posted == []
  {
    ExecExclusive(run);
  }

  /** The error code means the destruction, and only that. */
  lemma {:induction false} AbortedMeansDestroyed(run: seq<Action>, k: Request)
    requires k in Exec(run).live && !Exec(run).live[k]
    ensures Exec(run).destroyed
  {
    var before := run[..|run| - 1];
    if k in Exec(before).live && !Exec(before).live[k] {
      AbortedMeansDestroyed(before, k);
    }
  }

  function Continue(s: State, more: seq<Action>): State {
    if more == [] then s else Step(Continue(s, more[..|more| - 1]), more[|more| - 1])
  }

  /** Once destroyed, no request made so far becomes a success any more, however the run goes on. */
  lemma {:induction false} NoSuccessAfterDestruction(s: State, more: seq<Action>, k: Request)
    requires s.destroyed && k < s.next && (k in s.live ==> !s.live[k])
    ensures var t := Continue(s, more); t.destroyed && k < t.next && (k in t.live ==> !t.live[k])
  {
    if more != [] { NoSuccessAfterDestruction(s, more[..|more| - 1], k); }
  }

  lemma After(run: seq<Action>, a: Action)
    ensures Exec(run + [a]) == Step(Exec(run), a)
  {
    assert (run + [a])[..|run|] == run;
  }

  lemma TwoAndDestroyed()
    ensures Exec([GetPermit, GetPermit, Destroy]) == State(2, true, true, [], [1], map[0 := true], [0, 1])
  {
    After([], GetPermit);
    After([GetPermit], GetPermit);
    After([GetPermit, GetPermit], Destroy);
    assert [] + [GetPermit] == [GetPermit] && [GetPermit] + [GetPermit] == [GetPermit, GetPermit];
    assert [GetPermit, GetPermit] + [Destroy] == [GetPermit, GetPermit, Destroy];
  }

  /**
   The initiation keeps the state alive, so it can come after the destruction. An aborted waiter
   that has dropped its permit has then reset the flag, and a second permit is let in.
   */
  lemma LateRequestBreaksExclusion()
    ensures var run := [GetPermit, GetPermit, Destroy, RunPosted(0), DropPermit(1), GetPermit];
      !Prompt(run) && Exec(run).live == map[0 := true, 2 := true]
  {
    TwoAndDestroyed();
    var r := [GetPermit, GetPermit, Destroy];
    var s, t := r + [RunPosted(0)], r + [RunPosted(0), DropPermit(1)];
    After(r, RunPosted(0));
    After(s, DropPermit(1));
    After(t, GetPermit);
    assert s + [DropPermit(1)] == t;
    var run := [GetPermit, GetPermit, Destroy, RunPosted(0), DropPermit(1), GetPermit];
    assert t + [GetPermit] == run && run[..5] == t;
  }

  /** Waiters, handoffs and permits belong to requests made. */
  predicate Numbered(s: State) {
    && (forall k :: k in s.live ==> k < s.next)
    && (forall i :: 0 <= i < |s.posted| ==> s.posted[i] < s.next)
    && (forall i :: 0 <= i < |s.queue| ==> s.queue[i] < s.next)
  }

  lemma StepNumbered(s: State, a: Action)
    requires Numbered(s)
    ensures Numbered(Step(s, a))
  {
  }

  lemma {:induction false} ExecNumbered(run: seq<Action>)
    ensures Numbered(Exec(run))
  {
    if run != [] {
      ExecNumbered(run[..|run| - 1]);
      StepNumbered(Exec(run[..|run| - 1]), run[|run| - 1]);
    }
  }

  predicate NoneSucceeded(s: State) {
    forall k :: k in s.live ==> !s.live[k]
  }

  /** Exactly when a request that comes after the destruction is harmless. */
  lemma LateRequestSafeIff(s: State)
    requires Numbered(s) && AtMostOneSuccess(s) && s.destroyed
    ensures AtMostOneSuccess(Step(s, GetPermit)) <==> s.hasActive || NoneSucceeded(s)
  {
    var t := Step(s, GetPermit);
    if !s.hasActive && AtMostOneSuccess(t) {
      assert s.next in t.live && t.live[s.next];
      forall k | k in s.live
        ensures !s.live[k]
      {
        assert k < s.next && t.live[k] == s.live[k];
      }
    }
  }

  /** At most one success at every point of the run. */
  predicate AlwaysExclusive(run: seq<Action>) {
    AtMostOneSuccess(Exec(run)) && (run != [] ==> AlwaysExclusive(run[..|run| - 1]))
  }

  /** Each request after the destruction finds the flag set or no successful permit left. */
  predicate LateRequestsSafe(run: seq<Action>) {
    run != [] ==>
      var s := Exec(run[..|run| - 1]);
      && LateRequestsSafe(run[..|run| - 1])
      && (run[|run| - 1].GetPermit? && s.destroyed ==> s.hasActive || NoneSucceeded(s))
  }

  lemma {:induction false} AliveIsPrompt(run: seq<Action>)
    requires !Exec(run).destroyed
    ensures Prompt(run)
  {
    if run != [] { AliveIsPrompt(run[..|run| - 1]); }
  }

  lemma AliveStaysExclusive(run: seq<Action>, a: Action)
    requires !Exec(run).destroyed
    ensures AtMostOneSuccess(Step(Exec(run), a))
  {
    AliveIsPrompt(run);
    ExecExclusive(run);
    ExecInv(run);
    if !a.Destroy? { StepExclusive(Exec(run), a); }
  }

  /**
   Exclusion over all runs, late requests included: it holds at every point if and only if each
   request after the destruction finds the flag set or no successful permit left.
   */
  lemma {:induction false} ExclusionIff(run: seq<Action>)
    ensures AlwaysExclusive(run) <==> LateRequestsSafe(run)
  {
    if run != [] {
      var before, a := run[..|run| - 1], run[|run| - 1];
      ExclusionIff(before);
      if !Exec(before).destroyed {
        AliveStaysExclusive(before, a);
      } else if AlwaysExclusive(before) {
        if a.GetPermit? {
          ExecNumbered(before);
          LateRequestSafeIff(Exec(before));
        } else {
          StepSuccesses(Exec(before), a);
        }
      }
    }
  }

  // ---------------------------------------------------------------- what becomes of a request

  datatype Fate = NotMade | Queued | Posted | Holding(ok: bool) | Done

  /** The way of request `k`, told from the inputs. */
  function NextFate(f: Fate, k: Request, s: State, a: Action): Fate {
    match a
    case GetPermit => if k != s.next then f else if s.hasActive then Queued else Holding(true)
    case RunPosted(i) => if i < |s.posted| && s.posted[i] == k then Holding(!s.destroyed) else f
    case DropPermit(j) =>
      if j !in s.live then f
      else if j == k then Done
      else if f.Queued? && s.queue != [] && s.queue[0] == k then Posted else f
    case Destroy => if f.Queued? && !s.destroyed then Posted else f
  }

  function FateOf(run: seq<Action>, k: Request): Fate {
    if run == [] then NotMade else NextFate(FateOf(run[..|run| - 1], k), k, Exec(run[..|run| - 1]), run[|run| - 1])
  }

  function B(b: bool): nat { if b then 1 else 0 }

  /** The state says the same: the request is in one place only, and there once. */
  predicate Told(s: State, k: Request, f: Fate) {
    && (f.NotMade? <==> k >= s.next)
    && multiset(s.queue)[k] == B(f.Queued?) && multiset(s.posted)[k] == B(f.Posted?)
    && (k in s.live <==> f.Holding?) && (k in s.live ==> s.live[k] == f.ok)
  }

  lemma WithoutOne(rs: seq<Request>, i: nat, k: Request)
    requires i < |rs|
    ensures multiset(rs)[k] == multiset(rs[..i] + rs[i + 1..])[k] + B(rs[i] == k)
  {
    assert rs == rs[..i] + [rs[i]] + rs[i + 1..];
  }

  lemma PostedTold(s: State, i: nat, k: Request, f: Fate)
    requires Told(s, k, f)
    ensures Told(Step(s, RunPosted(i)), k, NextFate(f, k, s, RunPosted(i)))
  {
    if i < |s.posted| { WithoutOne(s.posted, i, k); }
  }

  /** The front waiter moves. */
  lemma FrontMoves(queue: seq<Request>, posted: seq<Request>, k: Request)
    requires queue != []
    ensures multiset(queue[1..])[k] == multiset(queue)[k] - B(queue[0] == k) >= 0
    ensures multiset(posted + [queue[0]])[k] == multiset(posted)[k] + B(queue[0] == k)
  {
    WithoutOne(queue, 0, k);
    assert queue[..0] + queue[1..] == queue[1..];
    WithoutOne(posted + [queue[0]], |posted|, k);
    assert (posted + [queue[0]])[..|posted|] + (posted + [queue[0]])[|posted| + 1..] == posted;
  }

  lemma DropTold(s: State, j: Request, k: Request, f: Fate)
    requires Told(s, k, f)
    ensures Told(Step(s, DropPermit(j)), k, NextFate(f, k, s, DropPermit(j)))
  {
    if j in s.live && s.queue != [] { FrontMoves(s.queue, s.posted, k); }
  }

  lemma StepTold(s: State, a: Action, k: Request, f: Fate)
    requires Told(s, k, f)
    ensures Told(Step(s, a), k, NextFate(f, k, s, a))
  {
    match a
    case GetPermit =>
    case RunPosted(i) => PostedTold(s, i, k, f);
    case DropPermit(j) => DropTold(s, j, k, f);
    case Destroy =>
  }

  /**
   No request is lost or served twice: after every run each request made is in exactly one place, once
   (waiting, handed over, holding a permit, or done with it), and its way there is determined by the
   inputs. It is handed over when it is the front waiter of a dropped permit or at the destruction, and
   its permit is a success exactly if the semaphore existed when it was let in.
   */
  lemma {:induction false} FatesAreTrue(run: seq<Action>, k: Request)
    ensures Told(Exec(run), k, FateOf(run, k))
  {
    if run != [] {
      FatesAreTrue(run[..|run| - 1], k);
      StepTold(Exec(run[..|run| - 1]), run[|run| - 1], k, FateOf(run[..|run| - 1], k));
    }
  }

  predicate LetIn(f: Fate) { f.Holding? || f.Done? }

  /** The destruction lets every waiter go. */
  lemma DestroyEmptiesQueue(run: seq<Action>, k: Request)
    requires !Exec(run).destroyed
    ensures Exec(run + [Destroy]).queue == []
    ensures k in Exec(run).queue ==> k in Exec(run + [Destroy]).posted
  {
    assert (run + [Destroy])[..|run|] == run;
  }

  // ---------------------------------------------------------------- progress

  /** The executor runs the handoff in flight, if any, and the holder drops its permit. */
  function Turn(s: State): State
    requires Exclusive(s) && s.hasActive
  {
    if s.posted != [] then Step(Step(s, RunPosted(0)), DropPermit(s.posted[0]))
    else
      var k: Request :| k in s.live;
      Step(s, DropPermit(k))
  }

  lemma TurnServes(s: State)
    requires Inv(s) && !s.destroyed && Exclusive(s) && s.hasActive
    ensures Inv(Turn(s)) && Exclusive(Turn(s)) && !Turn(s).destroyed && Turn(s).next == s.next
    ensures s.queue != [] ==> Turn(s).hasActive && Turn(s).queue == s.queue[1..]
  {
    if s.posted != [] {
      StepInv(s, RunPosted(0));
      StepExclusive(s, RunPosted(0));
      StepInv(Step(s, RunPosted(0)), DropPermit(s.posted[0]));
      StepExclusive(Step(s, RunPosted(0)), DropPermit(s.posted[0]));
    } else {
      var k: Request :| k in s.live && Turn(s) == Step(s, DropPermit(k));
      StepInv(s, DropPermit(k));
      StepExclusive(s, DropPermit(k));
    }
  }

  function Turns(s: State, n: nat): State
    requires Inv(s) && !s.destroyed && Exclusive(s) && (n > 0 ==> s.hasActive) && n <= |s.queue|
    decreases n
  {
    if n == 0 then s
    else
      TurnServes(s);
      Turns(Turn(s), n - 1)
  }

  /** As long as holders drop their permits, |queue| turns let every waiting request in. */
  lemma {:induction false} EveryWaiterIsServed(s: State)
    requires Inv(s) && !s.destroyed && Exclusive(s)
    ensures Turns(s, |s.queue|).queue == []
    ensures Turns(s, |s.queue|).served == Requests(s.next)
    decreases |s.queue|
  {
    if s.queue != [] {
      TurnServes(s);
      EveryWaiterIsServed(Turn(s));
    } else {
      assert s.served == s.served + s.queue;
    }
  }

  // ---------------------------------------------------------------- the shared state

  class Shared {
    var next: Request
    var hasActivePermit: bool
    var semaphoreDestroyed: bool
    var waitQueue: seq<Request>
    var posted: seq<Request>
    var live: map<Request, bool>
    var served: seq<Request>

    ghost function View(): State
      reads this
    {
      State(next, hasActivePermit, semaphoreDestroyed, waitQueue, posted, live, served)
    }

    constructor ()
      ensures View() == INIT
    {
      next, hasActivePermit, semaphoreDestroyed, waitQueue, posted, live, served := 0, false, false, [], [], map[], [];
    }

    method GetPermit() returns (granted: bool)
      modifies this
      ensures View() == Step(old(View()), Action.GetPermit)
      ensures granted == !old(hasActivePermit)
    {
      granted := !hasActivePermit;
      var request := next;
      next := next + 1;
      if !hasActivePermit {
        hasActivePermit := true;
        live, served := live[request := true], served + [request];
      } else {
        waitQueue := waitQueue + [request];
      }
    }

    method ServeWaiter(waiter: Request)
      modifies this`posted, this`served
      ensures posted == old(posted) + [waiter] && served == old(served) + [waiter]
    {
      posted, served := posted + [waiter], served + [waiter];
    }

    method RunPosted(index: nat) returns (aborted: bool)
      requires index < |posted|
      modifies this`posted, this`live
      ensures View() == Step(old(View()), Action.RunPosted(index))
      ensures aborted == semaphoreDestroyed
    {
      aborted := semaphoreDestroyed;
      live := live[posted[index] := !aborted];
      posted := posted[..index] + posted[index + 1..];
    }

    method OnPermitDestroyed(request: Request)
      requires request in live
      modifies this
      ensures View() == Step(old(View()), DropPermit(request))
    {
      live := live - {request};
      if waitQueue == [] {
        hasActivePermit := false;
      } else {
        var waiter := waitQueue[0];
        waitQueue := waitQueue[1..];
        ServeWaiter(waiter);
      }
    }

    method OnSemaphoreDestroyed()
      requires !semaphoreDestroyed
      modifies this
      ensures View() == Step(old(View()), Destroy)
    {
      semaphoreDestroyed := true;
      while waitQueue != []
        invariant posted + waitQueue == old(posted) + old(waitQueue)
        invariant served + waitQueue == old(served) + old(waitQueue)
        invariant semaphoreDestroyed && next == old(next)
          && hasActivePermit == old(hasActivePermit) && live == old(live)
        decreases |waitQueue|
      {
        assert waitQueue == [waitQueue[0]] + waitQueue[1..];
        ServeWaiter(waitQueue[0]);
        waitQueue := waitQueue[1..];
      }
      assert posted + waitQueue == posted && served + waitQueue == served;
    }
  }
}
