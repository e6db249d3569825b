/**
 Who gets what from the driver of a TCP connection (net/src/tcp.rs:71-247).

 Module ConnectionDriver says where the streams are. Here the callers and the errors are followed: a
 journal of the run, which the driver does not see, keeps what each call asked for, where each stream
 came from, and how many streams there were at the latest accepted error.
 */
module ConnectionCallers {
  import opened Options
  import opened ConnectionDriver
  import R = Rendezvous

  datatype Journal = Journal(kinds: map<nat, Kind>, origins: map<nat, Kind>, errorAt: nat)

  function Record(j: Journal, st: State, a: Action): Journal {
    if !Enabled(st, a) then j else
    match a
    case Call(kind) => j.(kinds := j.kinds[st.calls := kind])
    case Accepted(ok) =>
      if ok then j.(origins := j.origins[st.streams := Incoming]) else j.(errorAt := st.streams)
    case Opened(ok) => if ok then j.(origins := j.origins[st.streams := Outgoing]) else j
    case _ => j
  }

  function JournalOf(run: seq<Action>): Journal {
    if run == [] then Journal(map[], map[], 0)
    else Record(JournalOf(run[..|run| - 1]), Exec(run[..|run| - 1]), run[|run| - 1])
  }

  // ---------------------------------------------------------------- invariants

  /** Everyone works for the kind of call they say. */
  ghost predicate RolesOk(st: State, j: Journal) {
    && (forall c :: c in j.kinds <==> 0 <= c < st.calls)
    && (forall i :: 0 <= i < |st.queue| ==>
          st.queue[i].call in j.kinds && j.kinds[st.queue[i].call] == st.queue[i].kind)
    && (forall i :: 0 <= i < |st.senders| ==> st.senders[i] in j.kinds && j.kinds[st.senders[i]] == Incoming)
    && (Busy(st.pc) ==> st.pc.call in j.kinds && j.kinds[st.pc.call] == if st.pc.SendIn? then Incoming else Outgoing)
  }

  /** Accepted streams are stored in one place and sent to one kind of caller, opened ones to the other. */
  ghost predicate OriginsOk(st: State, j: Journal) {
    && (forall s :: s in j.origins <==> 0 <= s < st.streams)
    && (forall s :: Ok(s) in st.results ==> s in j.origins && j.origins[s] == Incoming)
    && (forall s :: st.spare == Some(Ok(s)) ==> s in j.origins && j.origins[s] == Outgoing)
    && (forall c, s :: c in st.chans && st.chans[c].offered == Some(Ok(s)) ==>
          c in j.kinds && s in j.origins && j.origins[s] == j.kinds[c])
  }

  predicate Queued(st: State, call: nat) {
    exists i :: 0 <= i < |st.queue| && st.queue[i].call == call
  }

  /** The driver has the call before it. */
  predicate Pending(st: State, call: nat) {
    Queued(st, call) || call in st.senders || (Busy(st.pc) && st.pc.call == call)
  }

  /** The caller has an item, or has gone. */
  predicate Settled(c: Chan) {
    c.tx == R.TxDone(R.Sent) || (c.tx == R.TxDone(R.Abandoned) && R.ReceiverGone(c))
  }

  ghost predicate KnownOk(st: State, j: Journal) {
    forall c {:trigger st.chans[c]} :: c in st.chans ==>
      c in j.kinds && !j.kinds[c].Close? && (Pending(st, c) || Settled(st.chans[c]))
  }

  /** The driver gives up a call only when its caller is gone. */
  predicate DiscardOk(st: State) {
    st.pc.Discard? && st.pc.call in st.chans ==> R.ReceiverGone(st.chans[st.pc.call])
  }

  predicate CloseOk(st: State, j: Journal) {
    forall c :: c in j.kinds && j.kinds[c].Close? ==> Queued(st, c) || st.pc.Stopped?
  }

  /** Calls wait in the order in which they were made. */
  predicate OrderOk(st: State) {
    && (forall i, k :: 0 <= i < k < |st.senders| ==> st.senders[i] < st.senders[k])
    && (forall i, k :: 0 <= i < k < |st.queue| ==> st.queue[i].call < st.queue[k].call)
    && (forall i, k :: 0 <= i < |st.senders| && 0 <= k < |st.queue| ==> st.senders[i] < st.queue[k].call)
    && (Busy(st.pc) ==>
          && (forall i :: 0 <= i < |st.senders| ==> st.senders[i] < st.pc.call)
          && (forall k :: 0 <= k < |st.queue| ==> st.pc.call < st.queue[k].call))
  }

  /** Which of two incoming results is the older one. */
  predicate Older(j: Journal, x: Item, y: Item) {
    if x.Err? then y.Ok? && j.errorAt <= y.stream
    else x.stream < if y.Ok? then y.stream else j.errorAt
  }

  predicate Ascending(j: Journal, items: seq<Item>) {
    forall i, k :: 0 <= i < k < |items| ==> Older(j, items[i], items[k])
  }

  predicate AllOlder(j: Journal, items: seq<Item>, y: Item) {
    forall i :: 0 <= i < |items| ==> Older(j, items[i], y)
  }

  ghost predicate AgesOk(st: State, j: Journal) {
    && j.errorAt <= st.streams && Ascending(j, st.results)
    && (st.pc.SendIn? && st.pc.call in st.chans && st.chans[st.pc.call].offered.Some? ==>
          AllOlder(j, st.results, st.chans[st.pc.call].offered.value))
  }

  // ---------------------------------------------------------------- every step keeps them

  lemma Started(c: Chan, item: Item)
    requires ChanOk(c) && Idle(c)
    ensures var d := R.Step(c, R.Send(item)); d.offered == Some(item) && d.tx == R.TxCreated(item)
  {
  }

  lemma RolesCall(st: State, j: Journal, kind: Kind)
    requires RolesOk(st, j) && Enabled(st, Call(kind))
    ensures RolesOk(DoCall(st, kind), Record(j, st, Call(kind)))
  {
  }

  lemma RolesServe(st: State, j: Journal)
    requires RolesOk(st, j) && Enabled(st, ServeNext)
    ensures RolesOk(DoServe(st), j)
  {
  }

  lemma RolesTake(st: State, j: Journal)
    requires RolesOk(st, j) && Enabled(st, TakeCommand)
    ensures RolesOk(DoCommand(st), j)
  {
  }

  /** The calls left to do are the same, or the one being worked on is over. */
  predicate SameLine(st: State, t: State) {
    && t.queue == st.queue && t.senders == st.senders && t.calls == st.calls
    && (Busy(t.pc) ==> Busy(st.pc) && t.pc.call == st.pc.call && t.pc.SendIn? == st.pc.SendIn?)
  }

  lemma OtherSteps(st: State, a: Action)
    requires Enabled(st, a) && !a.Call? && !a.ServeNext? && !a.TakeCommand?
    ensures SameLine(st, Step(st, a))
  {
  }

  lemma RolesOther(st: State, t: State, j: Journal, k: Journal)
    requires RolesOk(st, j) && SameLine(st, t) && j.kinds == k.kinds
    ensures RolesOk(t, k)
  {
  }

  lemma RolesStep(st: State, j: Journal, a: Action)
    requires RolesOk(st, j)
    ensures RolesOk(Step(st, a), Record(j, st, a))
  {
    if Enabled(st, a) {
      match a
      case Call(kind) => RolesCall(st, j, kind);
      case ServeNext => RolesServe(st, j);
      case TakeCommand => RolesTake(st, j);
      case _ =>
        OtherSteps(st, a);
        RolesOther(st, Step(st, a), j, Record(j, st, a));
    }
  }

  lemma OrderCall(st: State, j: Journal, kind: Kind)
    requires RolesOk(st, j) && OrderOk(st)
    ensures OrderOk(DoCall(st, kind))
  {
  }

  lemma OrderServe(st: State)
    requires OrderOk(st) && Enabled(st, ServeNext)
    ensures OrderOk(DoServe(st))
  {
  }

  lemma OrderTake(st: State)
    requires OrderOk(st) && Enabled(st, TakeCommand)
    ensures OrderOk(DoCommand(st))
  {
  }

  lemma OrderOther(st: State, t: State)
    requires OrderOk(st) && SameLine(st, t)
    ensures OrderOk(t)
  {
  }

  lemma OrderStep(st: State, j: Journal, a: Action)
    requires RolesOk(st, j) && OrderOk(st)
    ensures OrderOk(Step(st, a))
  {
    if Enabled(st, a) {
      match a
      case Call(kind) => OrderCall(st, j, kind);
      case ServeNext => OrderServe(st);
      case TakeCommand => OrderTake(st);
      case _ =>
        OtherSteps(st, a);
        OrderOther(st, Step(st, a));
    }
  }

  // ---------------------------------------------------------------- channels, step by step

  /** What a step of the driver on its channel leaves alone. */
  lemma ChannelFrame(pc: Pc, c: Chan, step: R.Action<Item>)
    requires DriverMay(pc, step) && R.Enabled(c, step)
    ensures R.Step(c, step).offered == c.offered && R.Step(c, step).rx == c.rx
  {
  }

  lemma CallerFrame(c: Chan, step: R.Action<Item>)
    requires R.ReceiverAction(step)
    ensures var d := R.Step(c, step);
      d.offered == c.offered && d.tx == c.tx && (R.ReceiverGone(c) ==> R.ReceiverGone(d))
  {
  }

  /** An item handed back is the one that was offered, and its caller is gone. */
  lemma RefusedWasOffered(st: State)
    requires CurrentOk(st) && ChansOk(st) && Enabled(st, SendFinished)
    ensures var c := st.chans[st.pc.call];
      && c.offered.Some? && c.tx.end != R.Abandoned
      && (c.tx.end.Refused? ==> c.offered == Some(c.tx.end.value) && c.rx.RxDone?)
  {
  }

  // ---------------------------------------------------------------- origins

  lemma OriginsSwap(st: State, j: Journal, call: nat, d: Chan, pc: Pc)
    requires OriginsOk(st, j) && call in st.chans && d.offered == st.chans[call].offered
    ensures OriginsOk(st.(chans := st.chans[call := d], pc := pc), j)
  {
  }

  lemma OriginsCall(st: State, j: Journal, kind: Kind)
    requires OriginsOk(st, j) && RolesOk(st, j) && Enabled(st, Call(kind))
    ensures OriginsOk(DoCall(st, kind), Record(j, st, Call(kind)))
  {
  }

  /** The channel of `call`, and no other, changes, and carries the item. */
  predicate Offers(st: State, t: State, call: nat, item: Item) {
    call in t.chans && t.chans == st.chans[call := t.chans[call]] && t.chans[call].offered == Some(item)
  }

  /** An item of the right origin is sent, from wherever it was. */
  lemma OriginsOffer(st: State, t: State, j: Journal, k: Journal, call: nat, item: Item)
    requires OriginsOk(st, j) && Offers(st, t, call, item)
    requires (forall s :: Ok(s) in t.results ==> Ok(s) in st.results) && (t.spare.Some? ==> t.spare == st.spare)
    requires k.kinds == j.kinds && (forall s :: s in j.origins ==> s in k.origins && k.origins[s] == j.origins[s])
    requires forall s :: s in k.origins <==> 0 <= s < t.streams
    requires call in j.kinds && (item.Ok? ==> item.stream in k.origins && k.origins[item.stream] == j.kinds[call])
    ensures OriginsOk(t, k)
  {
  }

  /** The item was stored. */
  lemma OriginsSent(st: State, t: State, j: Journal, call: nat, item: Item)
    requires OriginsOk(st, j) && Offers(st, t, call, item) && t.streams == st.streams && call in j.kinds
    requires (forall s :: Ok(s) in t.results ==> Ok(s) in st.results) && (t.spare.Some? ==> t.spare == st.spare)
    requires (item in st.results && j.kinds[call] == Incoming) || (st.spare == Some(item) && j.kinds[call] == Outgoing)
    ensures OriginsOk(t, j)
  {
    OriginsOffer(st, t, j, j, call, item);
  }

  /** The item is new. */
  lemma OriginsNew(st: State, t: State, j: Journal, call: nat, ok: bool)
    requires OriginsOk(st, j) && Offers(st, t, call, Make(st, ok)) && call in j.kinds && j.kinds[call] == Outgoing
    requires t.results == st.results && t.spare == st.spare && t.streams == st.streams + if ok then 1 else 0
    ensures OriginsOk(t, if ok then j.(origins := j.origins[st.streams := Outgoing]) else j)
  {
    OriginsOffer(st, t, j, if ok then j.(origins := j.origins[st.streams := Outgoing]) else j, call, Make(st, ok));
  }

  lemma OriginsSame(st: State, t: State, j: Journal)
    requires OriginsOk(st, j)
    requires t.results == st.results && t.spare == st.spare && t.chans == st.chans && t.streams == st.streams
    ensures OriginsOk(t, j)
  {
  }

  /** Taking the last caller and the last result. */
  lemma ServeOffers(st: State)
    requires WaitingOk(st) && ChansOk(st) && Enabled(st, ServeNext) && st.senders != [] && st.results != []
    ensures Offers(st, DoServe(st), st.senders[|st.senders| - 1], st.results[|st.results| - 1])
    ensures DoServe(st).pc == SendIn(st.senders[|st.senders| - 1])
  {
    Started(st.chans[st.senders[|st.senders| - 1]], st.results[|st.results| - 1]);
  }

  lemma TakeOffers(st: State)
    requires WaitingOk(st) && ChansOk(st) && Enabled(st, TakeCommand)
    requires st.queue[0].kind.Outgoing? && st.spare.Some?
    ensures Offers(st, DoCommand(st), st.queue[0].call, st.spare.value)
  {
    Started(st.chans[st.queue[0].call], st.spare.value);
  }

  lemma OpenedOffers(st: State, ok: bool)
    requires CurrentOk(st) && ChansOk(st) && Enabled(st, Opened(ok))
    ensures Offers(st, DoOpened(st, ok), st.pc.call, Make(st, ok))
  {
    var c := st.chans[st.pc.call];
    assert R.Step(R.Step(c, R.ClosedCancel), R.Send(Make(st, ok))).offered == Some(Make(st, ok)) by {
      OpenedOk(c, Make(st, ok));
    }
  }

  lemma OriginsServe(st: State, j: Journal)
    requires OriginsOk(st, j) && RolesOk(st, j) && WaitingOk(st) && ChansOk(st) && Enabled(st, ServeNext)
    ensures OriginsOk(DoServe(st), j)
  {
    if st.senders != [] && st.results != [] {
      ServeOffers(st);
      OriginsSent(st, DoServe(st), j, st.senders[|st.senders| - 1], st.results[|st.results| - 1]);
    } else {
      OriginsSame(st, DoServe(st), j);
    }
  }

  /** An item comes back to the store of its origin. */
  lemma OriginsReturn(st: State, t: State, j: Journal, call: nat, item: Item)
    requires OriginsOk(st, j) && call in st.chans && st.chans[call].offered == Some(item) && call in j.kinds
    requires t.chans == st.chans - {call} && t.streams == st.streams
    requires forall s :: Ok(s) in t.results ==> Ok(s) in st.results || (Ok(s) == item && j.kinds[call] == Incoming)
    requires t.spare == st.spare || (t.spare == Some(item) && j.kinds[call] == Outgoing)
    ensures OriginsOk(t, j)
  {
  }

  lemma OriginsFinish(st: State, j: Journal)
    requires OriginsOk(st, j) && RolesOk(st, j) && CurrentOk(st) && ChansOk(st) && Enabled(st, SendFinished)
    ensures OriginsOk(DoFinish(st), j)
  {
    RefusedWasOffered(st);
    var end := st.chans[st.pc.call].tx.end;
    if end.Refused? { OriginsReturn(st, DoFinish(st), j, st.pc.call, end.value); }
  }

  lemma OriginsAccept(st: State, j: Journal, ok: bool)
    requires OriginsOk(st, j) && Enabled(st, Accepted(ok))
    ensures OriginsOk(DoAccept(st, ok), Record(j, st, Accepted(ok)))
  {
  }

  lemma OriginsTake(st: State, j: Journal)
    requires OriginsOk(st, j) && RolesOk(st, j) && WaitingOk(st) && ChansOk(st) && Enabled(st, TakeCommand)
    ensures OriginsOk(DoCommand(st), j)
  {
    if st.queue[0].kind.Outgoing? && st.spare.Some? {
      TakeOffers(st);
      OriginsSent(st, DoCommand(st), j, st.queue[0].call, st.spare.value);
    } else {
      OriginsSame(st, DoCommand(st), j);
    }
  }

  lemma OriginsOpened(st: State, j: Journal, ok: bool)
    requires OriginsOk(st, j) && RolesOk(st, j) && CurrentOk(st) && ChansOk(st) && Enabled(st, Opened(ok))
    ensures OriginsOk(DoOpened(st, ok), Record(j, st, Opened(ok)))
  {
    OpenedOffers(st, ok);
    OriginsNew(st, DoOpened(st, ok), j, st.pc.call, ok);
  }

  lemma OriginsChannel(st: State, j: Journal, step: R.Action<Item>)
    requires OriginsOk(st, j) && Enabled(st, ChannelStep(step))
    ensures OriginsOk(DoChannel(st, step), j)
  {
    ChannelFrame(st.pc, st.chans[st.pc.call], step);
    OriginsSwap(st, j, st.pc.call, R.Step(st.chans[st.pc.call], step), DoChannel(st, step).pc);
  }

  lemma OriginsCaller(st: State, j: Journal, call: nat, step: R.Action<Item>)
    requires OriginsOk(st, j) && Enabled(st, CallerStep(call, step))
    ensures OriginsOk(Step(st, CallerStep(call, step)), j)
  {
    CallerFrame(st.chans[call], step);
    OriginsSwap(st, j, call, R.Step(st.chans[call], step), st.pc);
  }

  lemma OriginsStep(st: State, j: Journal, a: Action)
    requires CurrentOk(st) && WaitingOk(st) && ChansOk(st) && RolesOk(st, j) && OriginsOk(st, j) && Enabled(st, a)
    ensures OriginsOk(Step(st, a), Record(j, st, a))
  {
    match a
    case Call(kind) => OriginsCall(st, j, kind);
    case CallerStep(call, step) => OriginsCaller(st, j, call, step);
    case ServeNext => OriginsServe(st, j);
    case ChannelStep(step) => OriginsChannel(st, j, step);
    case SendFinished => OriginsFinish(st, j);
    case Accepted(ok) => OriginsAccept(st, j, ok);
    case PeerClosed => OriginsSame(st, Step(st, a), j);
    case TakeCommand => OriginsTake(st, j);
    case CommandsGone => OriginsSame(st, Step(st, a), j);
    case Opened(ok) => OriginsOpened(st, j, ok);
    case Discarded => OriginsSame(st, Step(st, a), j);
  }

  // ---------------------------------------------------------------- nobody is forgotten

  lemma QueuedStays(st: State, t: State, call: nat)
    requires Queued(st, call)
    requires t.queue == st.queue || (exists k :: t.queue == st.queue + [k])
      || (st.queue != [] && t.queue == st.queue[1..])
    ensures Queued(t, call) || (st.queue[0].call == call && t.queue == st.queue[1..])
  {
    var i :| 0 <= i < |st.queue| && st.queue[i].call == call;
    if t.queue == st.queue[1..] {
      if i > 0 { assert t.queue[i - 1].call == call; }
    } else {
      assert t.queue[i].call == call;
    }
  }

  lemma PendingCall(st: State, kind: Kind, call: nat)
    requires Pending(st, call)
    ensures Pending(DoCall(st, kind), call)
  {
    if Queued(st, call) { QueuedStays(st, DoCall(st, kind), call); }
  }

  lemma PendingServe(st: State, call: nat)
    requires Pending(st, call) && Enabled(st, ServeNext)
    ensures Pending(DoServe(st), call)
  {
    var t, n := DoServe(st), |st.senders| - 1;
    if Queued(st, call) {
      QueuedStays(st, t, call);
    } else if st.senders != [] && st.results != [] {
      assert st.senders == st.senders[..n] + [st.senders[n]];
    }
  }

  lemma PendingTake(st: State, call: nat)
    requires Pending(st, call) && Enabled(st, TakeCommand) && !(st.queue[0].kind.Close? && st.queue[0].call == call)
    ensures Pending(DoCommand(st), call)
  {
    if Queued(st, call) { QueuedStays(st, DoCommand(st), call); }
  }

  lemma KnownCall(st: State, j: Journal, kind: Kind)
    requires KnownOk(st, j) && RolesOk(st, j) && Enabled(st, Call(kind))
    ensures KnownOk(DoCall(st, kind), Record(j, st, Call(kind)))
  {
    var t := DoCall(st, kind);
    forall c | c in t.chans ensures Pending(t, c) || Settled(t.chans[c]) {
      if c == st.calls {
        assert t.queue[|st.queue|].call == c;
      } else if Pending(st, c) {
        PendingCall(st, kind, c);
      }
    }
  }

  lemma KnownServe(st: State, j: Journal)
    requires KnownOk(st, j) && Enabled(st, ServeNext)
    ensures KnownOk(DoServe(st), j)
  {
    var t, n := DoServe(st), |st.senders| - 1;
    forall c | c in t.chans ensures Pending(t, c) || Settled(t.chans[c]) {
      if Pending(st, c) { PendingServe(st, c); }
    }
  }

  lemma KnownTake(st: State, j: Journal)
    requires KnownOk(st, j) && RolesOk(st, j) && Enabled(st, TakeCommand)
    ensures KnownOk(DoCommand(st), j)
  {
    var t := DoCommand(st);
    forall c | c in t.chans ensures c in j.kinds && !j.kinds[c].Close? && (Pending(t, c) || Settled(t.chans[c])) {
      if Pending(st, c) { PendingTake(st, c); }
    }
  }

  /** The channel of the current call changes, and the call stays current. */
  lemma KnownCurrent(st: State, t: State, j: Journal, d: Chan)
    requires KnownOk(st, j) && Busy(st.pc) && Busy(t.pc) && t.pc.call == st.pc.call && st.pc.call in st.chans
    requires t.chans == st.chans[st.pc.call := d] && t.queue == st.queue && t.senders == st.senders
    ensures KnownOk(t, j)
  {
    forall c | c in t.chans ensures Pending(t, c) || Settled(t.chans[c]) {
      if Queued(st, c) { QueuedStays(st, t, c); }
    }
  }

  lemma KnownCaller(st: State, j: Journal, call: nat, d: Chan)
    requires KnownOk(st, j) && call in st.chans
    requires var c := st.chans[call]; d.tx == c.tx && (R.ReceiverGone(c) ==> R.ReceiverGone(d))
    ensures KnownOk(st.(chans := st.chans[call := d]), j)
  {
    var t := st.(chans := st.chans[call := d]);
    forall c | c in t.chans ensures Pending(t, c) || Settled(t.chans[c]) {
      if Queued(st, c) { QueuedStays(st, t, c); }
    }
  }

  /** The current call is over: settled, or its channel is gone. */
  lemma KnownOver(st: State, t: State, j: Journal)
    requires KnownOk(st, j) && t.queue == st.queue && t.senders == st.senders
    requires forall c :: c in t.chans ==> c in st.chans && t.chans[c] == st.chans[c]
    requires Busy(st.pc) && st.pc.call in t.chans ==> Settled(t.chans[st.pc.call])
    ensures KnownOk(t, j)
  {
    forall c | c in t.chans ensures c in j.kinds && !j.kinds[c].Close? && (Pending(t, c) || Settled(t.chans[c])) {
      assert t.chans[c] == st.chans[c];
      if Queued(st, c) { QueuedStays(st, t, c); }
    }
  }

  lemma DiscardedSettles(st: State)
    requires CurrentOk(st) && ChansOk(st) && DiscardOk(st) && Enabled(st, Discarded)
    ensures Settled(st.chans[st.pc.call])
  {
  }

  lemma KnownChannel(st: State, j: Journal, step: R.Action<Item>)
    requires KnownOk(st, j) && Enabled(st, ChannelStep(step))
    ensures KnownOk(DoChannel(st, step), j)
  {
    KnownCurrent(st, DoChannel(st, step), j, R.Step(st.chans[st.pc.call], step));
  }

  lemma KnownOpened(st: State, j: Journal, ok: bool)
    requires KnownOk(st, j) && CurrentOk(st) && ChansOk(st) && Enabled(st, Opened(ok))
    ensures KnownOk(DoOpened(st, ok), Record(j, st, Opened(ok)))
  {
    OpenedOffers(st, ok);
    KnownCurrent(st, DoOpened(st, ok), j, DoOpened(st, ok).chans[st.pc.call]);
  }

  lemma KnownFinish(st: State, j: Journal)
    requires KnownOk(st, j) && CurrentOk(st) && ChansOk(st) && Enabled(st, SendFinished)
    ensures KnownOk(DoFinish(st), j)
  {
    RefusedWasOffered(st);
    KnownOver(st, DoFinish(st), j);
  }

  lemma KnownStep(st: State, j: Journal, a: Action)
    requires CurrentOk(st) && ChansOk(st) && RolesOk(st, j) && DiscardOk(st) && KnownOk(st, j) && Enabled(st, a)
    ensures KnownOk(Step(st, a), Record(j, st, a))
  {
    match a
    case Call(kind) => KnownCall(st, j, kind);
    case CallerStep(call, step) =>
      CallerFrame(st.chans[call], step);
      KnownCaller(st, j, call, R.Step(st.chans[call], step));
    case ServeNext => KnownServe(st, j);
    case ChannelStep(step) => KnownChannel(st, j, step);
    case SendFinished => KnownFinish(st, j);
    case Accepted(_) => KnownOver(st, Step(st, a), j);
    case PeerClosed => KnownOver(st, Step(st, a), j);
    case TakeCommand => KnownTake(st, j);
    case CommandsGone => KnownOver(st, Step(st, a), j);
    case Opened(ok) => KnownOpened(st, j, ok);
    case Discarded =>
      DiscardedSettles(st);
      KnownOver(st, Step(st, a), j);
  }

  lemma DiscardStep(st: State, a: Action)
    requires CurrentOk(st) && ChansOk(st) && DiscardOk(st) && Enabled(st, a)
    ensures DiscardOk(Step(st, a))
  {
    match a
    case CallerStep(call, step) => CallerFrame(st.chans[call], step);
    case ChannelStep(step) =>
      ChannelFrame(st.pc, st.chans[st.pc.call], step);
      if st.pc.Opening? { R.ClosedStepReturns(st.chans[st.pc.call], step); }
    case _ =>
  }

  lemma CloseStep(st: State, j: Journal, a: Action)
    requires RolesOk(st, j) && CloseOk(st, j) && Enabled(st, a)
    ensures CloseOk(Step(st, a), Record(j, st, a))
  {
    var t, k := Step(st, a), Record(j, st, a);
    forall c | c in k.kinds && k.kinds[c].Close? ensures Queued(t, c) || t.pc.Stopped? {
      if a.Call? && c == st.calls {
        assert t.queue[|st.queue|].call == c;
      } else if Queued(st, c) {
        QueuedStays(st, t, c);
      }
    }
  }

  // ---------------------------------------------------------------- ages

  lemma AscendingSnoc(j: Journal, items: seq<Item>, y: Item)
    requires Ascending(j, items) && AllOlder(j, items, y)
    ensures Ascending(j, items + [y])
  {
  }

  lemma {:induction false} OkOnlyAscends(items: seq<Item>, j: Journal, k: Journal)
    requires Ascending(j, items)
    ensures Ascending(k, OkOnly(items))
  {
    if items != [] {
      OkOnlyAscends(items[1..], j, k);
      if items[0].Ok? {
        var rest := OkOnly(items[1..]);
        forall b | 0 <= b < |rest| ensures Older(k, items[0], rest[b]) {
          assert rest[b] == Ok(rest[b].stream) && rest[b] in items[1..];
          var i :| 0 <= i < |items[1..]| && items[1..][i] == rest[b];
          assert Older(j, items[0], items[i + 1]);
        }
        assert OkOnly(items) == [items[0]] + rest;
      }
    }
  }

  /** Everything stored is older than a stream, or an error, that comes in now. */
  lemma NewIsNewest(st: State, j: Journal, items: seq<Item>, y: Item)
    requires OriginsOk(st, j) && j.errorAt <= st.streams
    requires forall i :: 0 <= i < |items| ==> items[i] in st.results
    requires y == Ok(st.streams) || (y == Err && j.errorAt == st.streams)
    requires y.Err? ==> forall i :: 0 <= i < |items| ==> items[i].Ok?
    ensures AllOlder(j, items, y)
  {
    forall i | 0 <= i < |items| ensures Older(j, items[i], y) {
      if items[i].Ok? { assert Ok(items[i].stream) in st.results; }
    }
  }

  lemma AgesAccept(st: State, j: Journal, ok: bool)
    requires AgesOk(st, j) && OriginsOk(st, j) && Enabled(st, Accepted(ok))
    ensures AgesOk(DoAccept(st, ok), Record(j, st, Accepted(ok)))
  {
    if ok {
      NewIsNewest(st, j, st.results, Ok(st.streams));
      AscendingSnoc(j, st.results, Ok(st.streams));
    } else {
      var k, kept := j.(errorAt := st.streams), OkOnly(st.results);
      OkOnlyAscends(st.results, j, k);
      forall i | 0 <= i < |kept| ensures kept[i] in st.results { assert Ok(kept[i].stream) in kept; }
      NewIsNewest(st, k, kept, Err);
      AscendingSnoc(k, kept, Err);
    }
  }

  lemma AgesServe(st: State, j: Journal)
    requires AgesOk(st, j) && WaitingOk(st) && ChansOk(st) && Enabled(st, ServeNext)
    ensures AgesOk(DoServe(st), j)
  {
    if st.senders != [] && st.results != [] {
      var m := |st.results| - 1;
      ServeOffers(st);
      assert AllOlder(j, st.results[..m], st.results[m]) && Ascending(j, st.results[..m]);
    }
  }

  lemma AgesFinish(st: State, j: Journal)
    requires AgesOk(st, j) && CurrentOk(st) && ChansOk(st) && Enabled(st, SendFinished)
    ensures AgesOk(DoFinish(st), j)
  {
    RefusedWasOffered(st);
    var end := st.chans[st.pc.call].tx.end;
    if end.Refused? && st.pc.SendIn? { AscendingSnoc(j, st.results, end.value); }
  }

  /** The stored results stay, and so does what is sent from there. */
  lemma AgesOther(st: State, t: State, j: Journal, k: Journal)
    requires AgesOk(st, j) && t.results == st.results && t.streams >= st.streams && k.errorAt == j.errorAt
    requires t.pc.SendIn? ==> st.pc == t.pc
    requires t.pc.SendIn? && t.pc.call in t.chans ==>
      t.pc.call in st.chans && t.chans[t.pc.call].offered == st.chans[t.pc.call].offered
    ensures AgesOk(t, k)
  {
  }

  lemma AgesCaller(st: State, j: Journal, call: nat, step: R.Action<Item>)
    requires AgesOk(st, j) && Enabled(st, CallerStep(call, step))
    ensures AgesOk(Step(st, CallerStep(call, step)), j)
  {
    CallerFrame(st.chans[call], step);
    AgesOther(st, Step(st, CallerStep(call, step)), j, j);
  }

  lemma AgesChannel(st: State, j: Journal, step: R.Action<Item>)
    requires AgesOk(st, j) && Enabled(st, ChannelStep(step))
    ensures AgesOk(DoChannel(st, step), j)
  {
    ChannelFrame(st.pc, st.chans[st.pc.call], step);
    AgesOther(st, DoChannel(st, step), j, j);
  }

  lemma AgesCall(st: State, j: Journal, kind: Kind)
    requires AgesOk(st, j) && CurrentOk(st) && ChansOk(st) && Enabled(st, Call(kind))
    ensures AgesOk(DoCall(st, kind), Record(j, st, Call(kind)))
  {
    AgesOther(st, DoCall(st, kind), j, Record(j, st, Call(kind)));
  }

  lemma AgesStep(st: State, j: Journal, a: Action)
    requires CurrentOk(st) && WaitingOk(st) && ChansOk(st) && OriginsOk(st, j) && AgesOk(st, j) && Enabled(st, a)
    ensures AgesOk(Step(st, a), Record(j, st, a))
  {
    match a
    case Call(kind) => AgesCall(st, j, kind);
    case CallerStep(call, step) => AgesCaller(st, j, call, step);
    case ServeNext => AgesServe(st, j);
    case ChannelStep(step) => AgesChannel(st, j, step);
    case SendFinished => AgesFinish(st, j);
    case Accepted(ok) => AgesAccept(st, j, ok);
    case _ => AgesOther(st, Step(st, a), j, Record(j, st, a));
  }

  // ---------------------------------------------------------------- runs

  ghost predicate CallersOk(st: State, j: Journal) {
    && RolesOk(st, j) && OriginsOk(st, j) && KnownOk(st, j) && DiscardOk(st)
    && CloseOk(st, j) && OrderOk(st) && AgesOk(st, j)
  }

  lemma CallersStep(st: State, j: Journal, a: Action)
    requires CurrentOk(st) && WaitingOk(st) && ChansOk(st) && CallersOk(st, j)
    ensures CallersOk(Step(st, a), Record(j, st, a))
  {
    if Enabled(st, a) {
      RolesStep(st, j, a);
      OriginsStep(st, j, a);
      KnownStep(st, j, a);
      DiscardStep(st, a);
      CloseStep(st, j, a);
      OrderStep(st, j, a);
      AgesStep(st, j, a);
    }
  }

  lemma {:induction false} ExecCallers(run: seq<Action>)
    ensures CallersOk(Exec(run), JournalOf(run))
  {
    if run != [] {
      var before := run[..|run| - 1];
      ExecCallers(before);
      ExecInv(before);
      CallersStep(Exec(before), JournalOf(before), run[|run| - 1]);
    }
  }

  // ---------------------------------------------------------------- callers

  ghost predicate WasGone(run: seq<Action>, call: nat) {
    exists i :: 0 <= i <= |run| && call in Exec(run[..i]).chans && R.ReceiverGone(Exec(run[..i]).chans[call])
  }

  lemma GoneBefore(run: seq<Action>, call: nat)
    requires run != [] && WasGone(run[..|run| - 1], call)
    ensures WasGone(run, call)
  {
    var n := |run| - 1;
    var i :| 0 <= i <= n && call in Exec(run[..n][..i]).chans && R.ReceiverGone(Exec(run[..n][..i]).chans[call]);
    assert run[..n][..i] == run[..i];
  }

  /** A channel disappears only with its receiver. */
  lemma ChannelsStay(st: State, a: Action, call: nat)
    requires CurrentOk(st) && ChansOk(st) && call in st.chans
    ensures call in Step(st, a).chans || st.chans[call].rx.RxDone?
  {
    if a.SendFinished? && Enabled(st, a) { RefusedWasOffered(st); }
  }

  lemma {:induction false} RemovedWasGone(run: seq<Action>, call: nat)
    requires call in JournalOf(run).kinds && !JournalOf(run).kinds[call].Close?
    ensures call in Exec(run).chans || WasGone(run, call)
  {
    var n := |run| - 1;
    var before := run[..n];
    ExecInv(before);
    if call in JournalOf(before).kinds {
      ExecCallers(before);
      RemovedWasGone(before, call);
      if call in Exec(before).chans {
        ChannelsStay(Exec(before), run[n], call);
        if call !in Exec(run).chans {
          assert R.ReceiverGone(Exec(run[..n]).chans[call]);
          assert WasGone(run, call);
        }
      } else {
        GoneBefore(run, call);
      }
    }
  }

  /**
   Nobody is forgotten: at any point a call for a stream is still before the driver, or its caller
   has received an item, or was gone at some point; and a call to close the connection is before the
   driver until that has stopped.
   */
  lemma NobodyForgotten(run: seq<Action>, call: nat)
    requires call < Exec(run).calls
    ensures var st, j := Exec(run), JournalOf(run);
      && call in j.kinds
      && (j.kinds[call].Close? ==> Queued(st, call) || st.pc.Stopped?)
      && (!j.kinds[call].Close? ==>
            || Pending(st, call) || WasGone(run, call)
            || (call in st.chans && R.Taken(st.chans[call]).Some?))
  {
    ExecCallers(run);
    ExecInv(run);
    var st, j := Exec(run), JournalOf(run);
    if !j.kinds[call].Close? && !Pending(st, call) {
      RemovedWasGone(run, call);
      if call in st.chans && R.ReceiverGone(st.chans[call]) {
        assert run[..|run|] == run;
        assert WasGone(run, call);
      }
    }
  }

  /** A call is given up only if its caller is gone. */
  lemma OnlyTheGoneAreDiscarded(run: seq<Action>)
    requires Exec(run).pc.Discard?
    ensures Exec(run).pc.call in Exec(run).chans && R.ReceiverGone(Exec(run).chans[Exec(run).pc.call])
  {
    ExecInv(run);
    ExecCallers(run);
  }

  lemma TakenHasKind(st: State, j: Journal, call: nat, s: nat)
    requires OriginsOk(st, j) && call in st.chans && ChanOk(st.chans[call])
    requires R.At(st.chans[call], Ok(s), R.WithReceiver)
    ensures call in j.kinds && s in j.origins && j.origins[s] == j.kinds[call]
  {
    ChannelKeeps(st.chans[call], Ok(s));
  }

  /** Callers of `incoming` only ever get accepted streams, callers of `outgoing` only opened ones. */
  lemma StreamsReachTheirKind(run: seq<Action>, call: nat, s: nat)
    requires At(Exec(run), s, WithCaller(call))
    ensures var j := JournalOf(run); call in j.kinds && s in j.origins && j.origins[s] == j.kinds[call]
  {
    assert OriginsOk(Exec(run), JournalOf(run)) by { ExecCallers(run); }
    assert ChanOk(Exec(run).chans[call]) by { ExecInv(run); }
    TakenHasKind(Exec(run), JournalOf(run), call, s);
  }

  /**
   Whom the driver serves with what: an incoming result goes out newest first and to the caller who
   has waited for the shortest time, and commands are taken in the order in which they were sent.
   */
  lemma ServedInOrder(run: seq<Action>)
    ensures var st, j := Exec(run), JournalOf(run);
      && (st.pc.SendIn? ==>
            && st.pc.call in st.chans && st.chans[st.pc.call].offered.Some?
            && AllOlder(j, st.results, st.chans[st.pc.call].offered.value)
            && (forall i :: 0 <= i < |st.senders| ==> st.senders[i] < st.pc.call))
      && (Busy(st.pc) ==> forall k :: 0 <= k < |st.queue| ==> st.pc.call < st.queue[k].call)
      && (forall i, k :: 0 <= i < |st.senders| && 0 <= k < |st.queue| ==> st.senders[i] < st.queue[k].call)
      && (forall i, k :: 0 <= i < k < |st.queue| ==> st.queue[i].call < st.queue[k].call)
  {
    ExecInv(run);
    ExecCallers(run);
  }

  /** The driver stops for a call to close, or when the peer or all handles are gone, and never else. */
  lemma StopsIff(run: seq<Action>, a: Action)
    requires !Exec(run).pc.Stopped?
    ensures Step(Exec(run), a).pc.Stopped? <==>
      Enabled(Exec(run), a)
      && (a.PeerClosed? || a.CommandsGone? || (a.TakeCommand? && Exec(run).queue[0].kind.Close?))
  {
  }

  // ---------------------------------------------------------------- errors

  /** An error that waits for a caller, or is on its way to one. */
  predicate ErrorAlive(st: State, kind: Kind) {
    match kind
    case Incoming =>
      Err in st.results || (st.pc.SendIn? && st.pc.call in st.chans && st.chans[st.pc.call].offered == Some(Err))
    case Outgoing =>
      st.spare == Some(Err) || (st.pc.SendOut? && st.pc.call in st.chans && st.chans[st.pc.call].offered == Some(Err))
    case Close => false
  }

  /** A call that was waiting, or not made yet, in `st` has received an error in `t`. */
  predicate Heard(st: State, t: State, j: Journal, kind: Kind, call: nat) {
    && call in t.chans && R.Taken(t.chans[call]) == Some(Err) && call in j.kinds && j.kinds[call] == kind
    && (call < st.calls ==> Pending(st, call))
  }

  /** A failure of the connection is alive at once. */
  lemma ErrorsStart(st: State)
    ensures Enabled(st, Accepted(false)) ==> ErrorAlive(Step(st, Accepted(false)), Incoming)
    ensures Enabled(st, Opened(false)) && CurrentOk(st) && ChansOk(st) ==> ErrorAlive(Step(st, Opened(false)), Outgoing)
  {
    if Enabled(st, Opened(false)) && CurrentOk(st) && ChansOk(st) { OpenedOffers(st, false); }
  }

  lemma ErrorServe(st: State, kind: Kind)
    requires WaitingOk(st) && ChansOk(st) && Enabled(st, ServeNext) && ErrorAlive(st, kind)
    ensures ErrorAlive(DoServe(st), kind)
  {
    if st.senders != [] && st.results != [] {
      var m := |st.results| - 1;
      assert st.results == st.results[..m] + [st.results[m]];
      ServeOffers(st);
    }
  }

  lemma ErrorTake(st: State, kind: Kind)
    requires WaitingOk(st) && ChansOk(st) && Enabled(st, TakeCommand) && ErrorAlive(st, kind)
    ensures ErrorAlive(DoCommand(st), kind)
  {
    if st.queue[0].kind.Outgoing? && st.spare.Some? { TakeOffers(st); }
  }

  /** The end of the sending leaves the error with the caller or back in its store. */
  lemma ErrorFinish(st: State, kind: Kind)
    requires CurrentOk(st) && ChansOk(st) && Enabled(st, SendFinished) && ErrorAlive(st, kind)
    ensures ErrorAlive(DoFinish(st), kind) || (st.pc.SendIn? == kind.Incoming?
      && DoFinish(st).chans == st.chans && R.Taken(st.chans[st.pc.call]) == Some(Err))
  {
    RefusedWasOffered(st);
  }

  lemma ErrorCaller(st: State, call: nat, step: R.Action<Item>, kind: Kind)
    requires Enabled(st, CallerStep(call, step)) && ErrorAlive(st, kind)
    ensures ErrorAlive(Step(st, CallerStep(call, step)), kind)
  {
    CallerFrame(st.chans[call], step);
  }

  lemma ErrorChannel(st: State, step: R.Action<Item>, kind: Kind)
    requires Enabled(st, ChannelStep(step)) && ErrorAlive(st, kind)
    ensures ErrorAlive(DoChannel(st, step), kind)
  {
    ChannelFrame(st.pc, st.chans[st.pc.call], step);
  }

  lemma ErrorStep(st: State, a: Action, kind: Kind)
    requires CurrentOk(st) && WaitingOk(st) && ChansOk(st) && Enabled(st, a) && ErrorAlive(st, kind)
    ensures ErrorAlive(Step(st, a), kind) || (a.SendFinished? && st.pc.SendIn? == kind.Incoming?
      && Step(st, a).chans == st.chans && R.Taken(st.chans[st.pc.call]) == Some(Err))
  {
    match a
    case CallerStep(call, step) => ErrorCaller(st, call, step, kind);
    case ServeNext => ErrorServe(st, kind);
    case ChannelStep(step) => ErrorChannel(st, step, kind);
    case SendFinished => ErrorFinish(st, kind);
    case TakeCommand => ErrorTake(st, kind);
    case Accepted(ok) => ErrorsStart(st);
    case _ =>
  }

  /** A call that is over does not come back. */
  lemma OverStaysOver(st: State, a: Action, call: nat)
    requires call < st.calls && Pending(Step(st, a), call)
    ensures Pending(st, call)
  {
    var t := Step(st, a);
    if i :| 0 <= i < |t.queue| && t.queue[i].call == call {
      if a.TakeCommand? && Enabled(st, a) {
        assert st.queue[i + 1].call == call;
      } else {
        assert st.queue[i].call == call;
      }
    } else if a.TakeCommand? && Enabled(st, a) && st.queue[0].call == call {
      assert Queued(st, call);
    }
  }

  lemma CallsGrow(st: State, a: Action)
    ensures st.calls <= Step(st, a).calls
  {
  }

  lemma {:induction false} OverStaysOverRun(run: seq<Action>, more: seq<Action>, call: nat)
    requires call < Exec(run).calls && Pending(Exec(run + more), call)
    ensures Pending(Exec(run), call)
  {
    if more == [] {
      assert run + more == run;
    } else {
      var n := |more| - 1;
      assert (run + more)[..|run + more| - 1] == run + more[..n];
      CallsGrowRun(run, more[..n]);
      OverStaysOver(Exec(run + more[..n]), more[n], call);
      OverStaysOverRun(run, more[..n], call);
    }
  }

  lemma {:induction false} CallsGrowRun(run: seq<Action>, more: seq<Action>)
    ensures Exec(run).calls <= Exec(run + more).calls
  {
    if more == [] {
      assert run + more == run;
    } else {
      var n := |more| - 1;
      assert (run + more)[..|run + more| - 1] == run + more[..n];
      CallsGrowRun(run, more[..n]);
      CallsGrow(Exec(run + more[..n]), more[n]);
    }
  }

  lemma HeardStays(st: State, u: State, j: Journal, a: Action, kind: Kind, call: nat)
    requires Heard(st, u, j, kind, call) && CurrentOk(u) && WaitingOk(u) && ChansOk(u) && RolesOk(u, j)
    ensures Heard(st, Step(u, a), Record(j, u, a), kind, call)
  {
    TakenWasOffered(u.chans[call]);
    TakenChannelStays(u, a, call);
  }

  /** The caller whose sending ends now had not been served before. */
  lemma HeardNow(run: seq<Action>, more: seq<Action>, kind: Kind)
    requires var u := Exec(run + more);
      && Enabled(u, SendFinished) && u.pc.SendIn? == kind.Incoming? && !kind.Close?
      && Step(u, SendFinished).chans == u.chans && R.Taken(u.chans[u.pc.call]) == Some(Err)
    ensures var u := Exec(run + more); Heard(Exec(run), Step(u, SendFinished), JournalOf(run + more), kind, u.pc.call)
  {
    var u := Exec(run + more);
    assert RolesOk(u, JournalOf(run + more)) by { ExecCallers(run + more); }
    if u.pc.call < Exec(run).calls {
      assert Pending(u, u.pc.call);
      OverStaysOverRun(run, more, u.pc.call);
    }
  }

  ghost predicate Kept(st: State, u: State, j: Journal, kind: Kind) {
    ErrorAlive(u, kind) || exists call :: Heard(st, u, j, kind, call)
  }

  lemma AliveIsKept(run: seq<Action>, more: seq<Action>, a: Action, kind: Kind)
    requires ErrorAlive(Exec(run + more), kind) && Enabled(Exec(run + more), a)
    ensures var u, j := Exec(run + more), JournalOf(run + more);
      Kept(Exec(run), Step(u, a), Record(j, u, a), kind)
  {
    var u, j := Exec(run + more), JournalOf(run + more);
    assert CurrentOk(u) && WaitingOk(u) && ChansOk(u) by { ExecInv(run + more); }
    ErrorStep(u, a, kind);
    if !ErrorAlive(Step(u, a), kind) {
      HeardNow(run, more, kind);
      assert Heard(Exec(run), Step(u, a), Record(j, u, a), kind, u.pc.call);
    }
  }

  lemma HeardIsKept(run: seq<Action>, more: seq<Action>, a: Action, kind: Kind, call: nat)
    requires Heard(Exec(run), Exec(run + more), JournalOf(run + more), kind, call)
    ensures var u, j := Exec(run + more), JournalOf(run + more);
      Kept(Exec(run), Step(u, a), Record(j, u, a), kind)
  {
    var u, j := Exec(run + more), JournalOf(run + more);
    assert CurrentOk(u) && WaitingOk(u) && ChansOk(u) by { ExecInv(run + more); }
    assert RolesOk(u, j) by { ExecCallers(run + more); }
    HeardStays(Exec(run), u, j, a, kind, call);
  }

  lemma AfterOne(run: seq<Action>, a: Action)
    ensures Exec(run + [a]) == Step(Exec(run), a)
    ensures JournalOf(run + [a]) == Record(JournalOf(run), Exec(run), a)
  {
    assert (run + [a])[..|run|] == run;
  }

  /**
   No error of the connection is swallowed: from any point at which one is alive, at every later
   point one is, or some caller of its kind that had not been served yet has received one.
   */
  lemma {:induction false} ErrorsAreHeard(run: seq<Action>, more: seq<Action>, kind: Kind)
    requires ErrorAlive(Exec(run), kind)
    ensures Kept(Exec(run), Exec(run + more), JournalOf(run + more), kind)
  {
    if more == [] {
      assert run + more == run;
    } else {
      var n := |more| - 1;
      ErrorsAreHeard(run, more[..n], kind);
      AfterOne(run + more[..n], more[n]);
      assert run + more == run + more[..n] + [more[n]];
      if ErrorAlive(Exec(run + more[..n]), kind) {
        if Enabled(Exec(run + more[..n]), more[n]) { AliveIsKept(run, more[..n], more[n], kind); }
      } else {
        var call :| Heard(Exec(run), Exec(run + more[..n]), JournalOf(run + more[..n]), kind, call);
        HeardIsKept(run, more[..n], more[n], kind, call);
      }
    }
  }

  /** A failure to accept or to open a stream makes an error alive for its kind of caller. */
  lemma FailuresAreErrors(run: seq<Action>, a: Action)
    requires Enabled(Exec(run), a) && (a == Accepted(false) || a == Opened(false))
    ensures ErrorAlive(Exec(run + [a]), if a.Accepted? then Incoming else Outgoing)
  {
    ExecInv(run);
    ErrorsStart(Exec(run));
    AfterOne(run, a);
  }
}
