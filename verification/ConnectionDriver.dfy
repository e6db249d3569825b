/**
 The driver that owns a TCP connection and hands its streams to callers (net/src/tcp.rs).

 Callers of `Connection::incoming` and `Connection::outgoing` each own the receiving half of a
 rendezvous channel and may be cancelled at any await. The driver owns the sending halves. The
 channels are the ones of module Rendezvous, so a run interleaves the driver's own steps with every
 atomic step of every channel.
 */
module ConnectionDriver {
  import opened Options
  import R = Rendezvous

  /** `Result<yamux::Stream, yamux::ConnectionError>`; streams are numbered in order of creation. */
  datatype Item = Ok(stream: nat) | Err

  datatype Kind = Incoming | Outgoing | Close
  datatype Command = Command(kind: Kind, call: nat)

  type Chan = R.Config<Item>

  /** Where the driver is. */
  datatype Pc =
    | Serving             // top of the inner `while let`
    | SendIn(call: nat)   // in `tx.send(result).await` of the inner loop
    | Select              // the outer select
    | Opening(call: nat)  // the inner select: open a stream, or notice that the caller has gone
    | SendOut(call: nat)  // in `reply_tx.send(result).await`
    | Discard(call: nat)  // `continue`: reply_tx is being dropped
    | Stopped

  /** Where a stream is, channel by channel. */
  datatype Holder = Stored | Spare | InChannel(call: nat)

  /**
   `results`, `senders` and `spare` are incoming_results, incoming_senders and outgoing_result.
   `streams` counts the streams accepted or opened so far and `whereabouts` is a history variable.
   */
  datatype State = State(
    results: seq<Item>, senders: seq<nat>, spare: Option<Item>, pc: Pc,
    queue: seq<Command>, chans: map<nat, Chan>, calls: nat, streams: nat,
    whereabouts: map<nat, Holder>)

  const INIT := State([], [], None, Serving, [], map[], 0, 0, map[])

  datatype Action =
    | Call(kind: Kind)                       // a caller sends a command
    | CallerStep(call: nat, step: R.Action<Item>)
    | ServeNext                              // one iteration of the inner loop
    | ChannelStep(step: R.Action<Item>)      // the driver polls the channel it waits on
    | SendFinished                           // `send` has returned
    | Accepted(ok: bool)                     // the connection yields an incoming stream or an error
    | PeerClosed
    | TakeCommand
    | CommandsGone                           // every handle of the connection is dropped
    | Opened(ok: bool)                       // the connection opens an outgoing stream or fails
    | Discarded

  function Make(st: State, ok: bool): Item { if ok then Ok(st.streams) else Err }

  /** `incoming_results.retain(|result| result.is_ok())` */
  function OkOnly(items: seq<Item>): (r: seq<Item>)
    ensures forall i :: 0 <= i < |r| ==> r[i].Ok?
    ensures forall s :: Ok(s) in items <==> Ok(s) in r
  {
    if items == [] then []
    else if items[0].Ok? then [items[0]] + OkOnly(items[1..])
    else OkOnly(items[1..])
  }

  /** The steps a channel takes on behalf of the driver, by what the driver is doing. */
  predicate DriverMay(pc: Pc, a: R.Action<Item>) {
    match pc
    case SendIn(_) => a.Store? || a.SignalTx? || a.SendPoll? || a.SendCheck? || a.SetTxDrop? || a.SignalTxDrop?
    case SendOut(_) => a.Store? || a.SignalTx? || a.SendPoll? || a.SendCheck? || a.SetTxDrop? || a.SignalTxDrop?
    case Opening(_) => a.Closed? || a.ClosedTest? || a.ClosedPoll?
    case Discard(_) => a.SenderDrop? || a.SetTxDrop? || a.SignalTxDrop?
    case _ => false
  }

  /** `closed()` was not polled yet or is suspended. */
  predicate Suspended(c: Chan) {
    c.tx.TxHeld? || (c.tx.TxClosedWait? && !c.rxNotify.waiter.Absent?)
  }

  predicate Enabled(st: State, a: Action) {
    match a
    case Call(_) => !st.pc.Stopped?
    case CallerStep(call, step) => call in st.chans && R.ReceiverAction(step) && R.Enabled(st.chans[call], step)
    case ServeNext => st.pc.Serving? && (st.senders != [] ==> st.senders[|st.senders| - 1] in st.chans)
    case ChannelStep(step) =>
      DriverMay(st.pc, step) && st.pc.call in st.chans && R.Enabled(st.chans[st.pc.call], step)
    case SendFinished =>
      (st.pc.SendIn? || st.pc.SendOut?) && st.pc.call in st.chans && st.chans[st.pc.call].tx.TxDone?
    case Accepted(_) => st.pc.Select?
    case PeerClosed => st.pc.Select?
    case TakeCommand => st.pc.Select? && st.queue != [] && (!st.queue[0].kind.Close? ==> st.queue[0].call in st.chans)
    case CommandsGone => st.pc.Select? && st.queue == []
    case Opened(_) => st.pc.Opening? && st.pc.call in st.chans && Suspended(st.chans[st.pc.call])
    case Discarded => st.pc.Discard? && st.pc.call in st.chans && st.chans[st.pc.call].tx.TxDone?
  }

  /** Start `send(item)` on the channel of `call`. */
  function StartSend(st: State, call: nat, item: Item): State
    requires call in st.chans
  {
    st.(chans := st.chans[call := R.Step(st.chans[call], R.Send(item))],
        whereabouts := if item.Ok? then st.whereabouts[item.stream := InChannel(call)] else st.whereabouts)
  }

  function DoCall(st: State, kind: Kind): State {
    st.(queue := st.queue + [Command(kind, st.calls)], calls := st.calls + 1,
        chans := if kind.Close? then st.chans else st.chans[st.calls := R.Init()])
  }

  function DoServe(st: State): State
    requires Enabled(st, ServeNext)
  {
    if st.senders == [] || st.results == [] then st.(pc := Select)
    else
      var n, m := |st.senders| - 1, |st.results| - 1;
      StartSend(st, st.senders[n], st.results[m])
        .(senders := st.senders[..n], results := st.results[..m], pc := SendIn(st.senders[n]))
  }

  function DoChannel(st: State, step: R.Action<Item>): State
    requires Enabled(st, ChannelStep(step))
  {
    var call := st.pc.call;
    var c := R.Step(st.chans[call], step);
    st.(chans := st.chans[call := c],
        pc := if st.pc.Opening? && c.tx.TxHeld? then Discard(call) else st.pc)
  }

  function DoFinish(st: State): State
    requires Enabled(st, SendFinished)
  {
    var call := st.pc.call;
    match st.chans[call].tx.end
    case Refused(item) =>
      var home := if st.pc.SendIn? then Stored else Spare;
      var done := st.(chans := st.chans - {call}, pc := Serving,
        whereabouts := if item.Ok? then st.whereabouts[item.stream := home] else st.whereabouts);
      if st.pc.SendIn? then done.(results := st.results + [item]) else done.(spare := Some(item))
    case _ => st.(pc := Serving)
  }

  function DoAccept(st: State, ok: bool): State {
    if ok then
      st.(results := st.results + [Ok(st.streams)], streams := st.streams + 1, pc := Serving,
          whereabouts := st.whereabouts[st.streams := Stored])
    else
      st.(results := OkOnly(st.results) + [Err], pc := Serving)
  }

  function DoCommand(st: State): State
    requires Enabled(st, TakeCommand)
  {
    var call := st.queue[0].call;
    var rest := st.(queue := st.queue[1..]);
    match st.queue[0].kind
    case Incoming => rest.(senders := st.senders + [call], pc := Serving)
    case Outgoing =>
      if st.spare.Some? then StartSend(rest, call, st.spare.value).(spare := None, pc := SendOut(call))
      else rest.(pc := Opening(call))
    case Close => rest.(pc := Stopped)
  }

  function DoOpened(st: State, ok: bool): State
    requires Enabled(st, Opened(ok))
  {
    var call := st.pc.call;
    var c := R.Step(st.chans[call], R.ClosedCancel);
    StartSend(st.(chans := st.chans[call := c]), call, Make(st, ok))
      .(pc := SendOut(call), streams := if ok then st.streams + 1 else st.streams)
  }

  function Step(st: State, a: Action): State {
    if !Enabled(st, a) then st else
    match a
    case Call(kind) => DoCall(st, kind)
    case CallerStep(call, step) => st.(chans := st.chans[call := R.Step(st.chans[call], step)])
    case ServeNext => DoServe(st)
    case ChannelStep(step) => DoChannel(st, step)
    case SendFinished => DoFinish(st)
    case Accepted(ok) => DoAccept(st, ok)
    case PeerClosed => st.(pc := Stopped)
    case TakeCommand => DoCommand(st)
    case CommandsGone => st.(pc := Stopped)
    case Opened(ok) => DoOpened(st, ok)
    case Discarded => st.(pc := Serving)
  }

  function Exec(run: seq<Action>): State {
    if run == [] then INIT else Step(Exec(run[..|run| - 1]), run[|run| - 1])
  }

  // ---------------------------------------------------------------- invariant

  ghost predicate Holds(st: State, s: nat, h: Holder) {
    match h
    case Stored => Ok(s) in st.results
    case Spare => st.spare == Some(Ok(s))
    case InChannel(call) => call in st.chans && st.chans[call].offered == Some(Ok(s))
  }

  predicate Idle(c: Chan) { c.tx.TxHeld? && c.offered.None? && !c.closedByWake }

  /** A value offered on a channel is never dropped by the driver. */
  ghost predicate ChanOk(c: Chan) {
    R.Inv(c) && (c.offered.Some? ==> R.TxEnd(c) != Some(R.Abandoned) && !c.closedByWake)
  }

  predicate Busy(pc: Pc) { pc.SendIn? || pc.SendOut? || pc.Opening? || pc.Discard? }

  ghost predicate CurrentOk(st: State) {
    Busy(st.pc) ==>
      && st.pc.call in st.chans && st.pc.call !in st.senders
      && (forall i :: 0 <= i < |st.queue| ==> st.queue[i].call != st.pc.call)
      && var c := st.chans[st.pc.call];
        match st.pc
        case SendIn(_) => c.offered.Some? && (c.offered == Some(Err) ==> Err !in st.results)
        case SendOut(_) => c.offered.Some? && st.spare.None?
        case Opening(_) =>
          c.offered.None? && st.spare.None? && !c.closedByWake
          && (c.tx.TxHeld? || c.tx.TxClosing? || c.tx.TxClosedWait?)
        case Discard(_) => c.offered.None? && (c.tx.TxHeld? || R.TxEnd(c).Some?)
  }

  ghost predicate WaitingOk(st: State) {
    && (forall i :: 0 <= i < |st.senders| ==> st.senders[i] in st.chans && Idle(st.chans[st.senders[i]]))
    && Distinct(st.senders)
    && (forall i :: 0 <= i < |st.queue| && !st.queue[i].kind.Close? ==>
          st.queue[i].call in st.chans && Idle(st.chans[st.queue[i].call]))
    && (forall i, j :: 0 <= i < j < |st.queue| ==> st.queue[i].call != st.queue[j].call)
    && (forall i :: 0 <= i < |st.queue| ==> st.queue[i].call < st.calls && st.queue[i].call !in st.senders)
  }

  ghost predicate ChansOk(st: State) {
    forall c :: c in st.chans ==> c < st.calls && ChanOk(st.chans[c])
  }

  predicate Distinct<T(==)>(items: seq<T>) {
    forall i, j :: 0 <= i < j < |items| ==> items[i] != items[j]
  }

  ghost predicate ResultsOk(st: State) {
    && Distinct(st.results)
    && (st.pc.Select? ==> st.senders == [] || st.results == [])
  }

  ghost predicate HomesOk(st: State) {
    && (forall s :: s in st.whereabouts <==> 0 <= s < st.streams)
    && (forall s, h :: Holds(st, s, h) <==> s in st.whereabouts && st.whereabouts[s] == h)
  }

  ghost predicate Inv(st: State) {
    CurrentOk(st) && WaitingOk(st) && ChansOk(st) && ResultsOk(st) && HomesOk(st)
  }

  // ---------------------------------------------------------------- every step keeps the invariant

  /** A caller's step touches neither what was offered nor the sending side. */
  lemma CallerStepOk(c: Chan, a: R.Action<Item>)
    requires ChanOk(c) && R.ReceiverAction(a)
    ensures var d := R.Step(c, a);
      ChanOk(d) && d.offered == c.offered && d.tx == c.tx && d.closedByWake == c.closedByWake
  {
    R.StepInv(c, a);
  }

  /** A driver's step on a channel in `send` neither changes what was offered nor abandons it. */
  lemma SendStepOk(pc: Pc, c: Chan, a: R.Action<Item>)
    requires ChanOk(c) && DriverMay(pc, a) && (pc.SendIn? || pc.SendOut?)
    ensures ChanOk(R.Step(c, a)) && R.Step(c, a).offered == c.offered
  {
    R.StepInv(c, a);
  }

  /** Polling `closed()` leaves nothing consumed unless it returns. */
  lemma ClosedStepOk(c: Chan, a: R.Action<Item>)
    requires R.Inv(c) && (a.Closed? || a.ClosedTest? || a.ClosedPoll?)
    requires c.offered.None? && (c.tx.TxHeld? || c.tx.TxClosing? || c.tx.TxClosedWait?) && !c.closedByWake
    ensures var d := R.Step(c, a);
      && R.Inv(d) && d.offered.None?
      && (d.tx.TxHeld? || ((d.tx.TxClosing? || d.tx.TxClosedWait?) && !d.closedByWake))
  {
    R.StepInv(c, a);
  }

  lemma DropStepOk(c: Chan, a: R.Action<Item>)
    requires R.Inv(c) && (a.SenderDrop? || a.SetTxDrop? || a.SignalTxDrop?)
    requires c.offered.None? && (c.tx.TxHeld? || R.TxEnd(c).Some?)
    ensures var d := R.Step(c, a); R.Inv(d) && d.offered.None? && (d.tx.TxHeld? || R.TxEnd(d).Some?)
  {
    R.StepInv(c, a);
  }

  lemma SendOk(c: Chan, item: Item)
    requires ChanOk(c) && Idle(c)
    ensures var d := R.Step(c, R.Send(item)); ChanOk(d) && d.offered == Some(item)
  {
    R.StepInv(c, R.Send(item));
  }

  lemma OpenedOk(c: Chan, item: Item)
    requires ChanOk(c) && Suspended(c) && c.offered.None? && !c.closedByWake
    ensures var d := R.Step(R.Step(c, R.ClosedCancel), R.Send(item)); ChanOk(d) && d.offered == Some(item)
  {
    R.StepInv(c, R.ClosedCancel);
    SendOk(R.Step(c, R.ClosedCancel), item);
  }

  /** Replacing a channel by one on which the same value was offered moves no stream. */
  lemma SwapHomes(st: State, call: nat, d: Chan, pc: Pc)
    requires HomesOk(st) && call in st.chans && d.offered == st.chans[call].offered
    ensures HomesOk(st.(chans := st.chans[call := d], pc := pc))
  {
    var t := st.(chans := st.chans[call := d], pc := pc);
    forall s, h ensures Holds(t, s, h) <==> Holds(st, s, h) {}
  }

  lemma CallHomes(st: State, kind: Kind)
    requires ChansOk(st) && HomesOk(st)
    ensures HomesOk(DoCall(st, kind))
  {
    var t := DoCall(st, kind);
    assert st.calls !in st.chans;
    forall s, h ensures Holds(t, s, h) <==> Holds(st, s, h) {}
  }

  lemma CallWaiting(st: State, kind: Kind)
    requires CurrentOk(st) && WaitingOk(st) && st.calls !in st.chans
    ensures CurrentOk(DoCall(st, kind)) && WaitingOk(DoCall(st, kind))
  {
    assert st.calls !in st.senders;
  }

  lemma CallInv(st: State, kind: Kind)
    requires Inv(st)
    ensures Inv(DoCall(st, kind))
  {
    CallHomes(st, kind);
    CallWaiting(st, kind);
  }

  lemma CallerWaiting(st: State, call: nat, d: Chan)
    requires CurrentOk(st) && WaitingOk(st) && call in st.chans
    requires var c := st.chans[call]; d.offered == c.offered && d.tx == c.tx && d.closedByWake == c.closedByWake
    ensures var t := st.(chans := st.chans[call := d]); CurrentOk(t) && WaitingOk(t)
  {
  }

  lemma CallerInv(st: State, call: nat, step: R.Action<Item>)
    requires Inv(st) && Enabled(st, CallerStep(call, step))
    ensures Inv(Step(st, CallerStep(call, step)))
  {
    var d := R.Step(st.chans[call], step);
    CallerStepOk(st.chans[call], step);
    CallerWaiting(st, call, d);
    SwapHomes(st, call, d, st.pc);
  }

  lemma ChannelInv(st: State, step: R.Action<Item>)
    requires Inv(st) && Enabled(st, ChannelStep(step))
    ensures Inv(DoChannel(st, step))
  {
    var c := st.chans[st.pc.call];
    match st.pc {
      case Opening(_) => ClosedStepOk(c, step);
      case Discard(_) => DropStepOk(c, step);
      case _ => SendStepOk(st.pc, c, step);
    }
    SwapChannelInv(st, R.Step(c, step), DoChannel(st, step).pc);
  }

  /** Replacing the channel the driver works on by one that carries the same value. */
  lemma SwapChannelInv(st: State, d: Chan, pc: Pc)
    requires Inv(st) && Busy(st.pc) && Busy(pc) && pc.call == st.pc.call
    requires ChanOk(d) && d.offered == st.chans[st.pc.call].offered
    requires pc == st.pc || (st.pc.Opening? && pc.Discard?)
    requires pc.Opening? ==> !d.closedByWake && (d.tx.TxHeld? || d.tx.TxClosing? || d.tx.TxClosedWait?)
    requires pc.Discard? ==> d.tx.TxHeld? || R.TxEnd(d).Some?
    ensures Inv(st.(chans := st.chans[st.pc.call := d], pc := pc))
  {
    SwapHomes(st, st.pc.call, d, pc);
  }

  lemma ServeHomes(st: State, d: Chan)
    requires HomesOk(st) && Distinct(st.results) && Enabled(st, ServeNext) && st.senders != [] && st.results != []
    requires var n, m := |st.senders| - 1, |st.results| - 1;
      && st.chans[st.senders[n]].offered.None?
      && d == R.Step(st.chans[st.senders[n]], R.Send(st.results[m])) && d.offered == Some(st.results[m])
    ensures HomesOk(DoServe(st))
  {
    var m := |st.results| - 1;
    var t := DoServe(st);
    assert st.results == t.results + [st.results[m]];
    if st.results[m].Ok? { assert Holds(st, st.results[m].stream, Stored); }
    forall s, h ensures Holds(t, s, h) <==> s in t.whereabouts && t.whereabouts[s] == h {
      assert Holds(st, s, h) <==> s in st.whereabouts && st.whereabouts[s] == h;
      assert Holds(st, s, Stored) <==> s in st.whereabouts && st.whereabouts[s] == Stored;
    }
  }

  lemma ServeWaiting(st: State, d: Chan)
    requires CurrentOk(st) && WaitingOk(st) && ResultsOk(st)
    requires Enabled(st, ServeNext) && st.senders != [] && st.results != []
    requires var n, m := |st.senders| - 1, |st.results| - 1;
      d == R.Step(st.chans[st.senders[n]], R.Send(st.results[m])) && d.offered == Some(st.results[m])
    ensures CurrentOk(DoServe(st)) && WaitingOk(DoServe(st)) && ResultsOk(DoServe(st))
  {
    var m := |st.results| - 1;
    assert st.results[m] !in st.results[..m];
  }

  lemma ServeInv(st: State)
    requires Inv(st) && Enabled(st, ServeNext)
    ensures Inv(DoServe(st))
  {
    if st.senders != [] && st.results != [] {
      var n, m := |st.senders| - 1, |st.results| - 1;
      var d := R.Step(st.chans[st.senders[n]], R.Send(st.results[m]));
      SendOk(st.chans[st.senders[n]], st.results[m]);
      ServeHomes(st, d);
      ServeWaiting(st, d);
    } else {
      forall s, h ensures Holds(DoServe(st), s, h) <==> Holds(st, s, h) {}
    }
  }

  lemma FinishHomes(st: State, item: Item)
    requires HomesOk(st) && Enabled(st, SendFinished) && st.chans[st.pc.call].tx.end == R.Refused(item)
    requires st.chans[st.pc.call].offered == Some(item) && (st.pc.SendOut? ==> st.spare.None?)
    ensures HomesOk(DoFinish(st))
  {
    var t := DoFinish(st);
    var call := st.pc.call;
    if item.Ok? { assert Holds(st, item.stream, InChannel(call)); }
    forall s, h ensures Holds(t, s, h) <==> s in t.whereabouts && t.whereabouts[s] == h {
      assert Holds(st, s, h) <==> s in st.whereabouts && st.whereabouts[s] == h;
      assert Holds(st, s, InChannel(call)) <==> s in st.whereabouts && st.whereabouts[s] == InChannel(call);
    }
  }

  /** What is in a channel is not stored as well. */
  lemma OfferedIsNotStored(st: State, call: nat, item: Item)
    requires HomesOk(st) && call in st.chans && st.chans[call].offered == Some(item)
    requires item.Err? ==> item !in st.results
    ensures item !in st.results
  {
    if item.Ok? {
      assert Holds(st, item.stream, InChannel(call));
      assert !Holds(st, item.stream, Stored);
    }
  }

  lemma FinishWaiting(st: State)
    requires CurrentOk(st) && WaitingOk(st) && Enabled(st, SendFinished)
    ensures CurrentOk(DoFinish(st)) && WaitingOk(DoFinish(st))
  {
  }

  lemma RefusedInv(st: State, item: Item)
    requires Inv(st) && Enabled(st, SendFinished) && st.chans[st.pc.call].tx.end == R.Refused(item)
    ensures Inv(DoFinish(st))
  {
    assert R.HandedBack(st.chans[st.pc.call]) == Some(item);
    FinishHomes(st, item);
    FinishWaiting(st);
    if st.pc.SendIn? { OfferedIsNotStored(st, st.pc.call, item); }
  }

  lemma FinishInv(st: State)
    requires Inv(st) && Enabled(st, SendFinished)
    ensures Inv(DoFinish(st))
  {
    var end := st.chans[st.pc.call].tx.end;
    if end.Refused? {
      RefusedInv(st, end.value);
    } else {
      PcInv(st, Serving);
    }
  }

  /** Moving on without touching anything. */
  lemma PcInv(st: State, pc: Pc)
    requires Inv(st) && (pc.Serving? || pc.Stopped?)
    ensures Inv(st.(pc := pc))
  {
    forall s, h ensures Holds(st.(pc := pc), s, h) <==> Holds(st, s, h) {}
  }

  lemma {:induction false} OkOnlyDistinct(items: seq<Item>)
    requires Distinct(items)
    ensures Distinct(OkOnly(items))
  {
    if items != [] {
      OkOnlyDistinct(items[1..]);
      if items[0].Ok? {
        assert Ok(items[0].stream) !in items[1..];
        assert items[0] !in OkOnly(items[1..]);
      }
    }
  }

  lemma AcceptInv(st: State, ok: bool)
    requires Inv(st) && st.pc.Select?
    ensures Inv(DoAccept(st, ok))
  {
    var t := DoAccept(st, ok);
    OkOnlyDistinct(st.results);
    assert !Holds(st, st.streams, Stored);
    assert Err !in OkOnly(st.results);
    forall s, h ensures Holds(t, s, h) <==> s in t.whereabouts && t.whereabouts[s] == h {
      assert Holds(st, s, h) <==> s in st.whereabouts && st.whereabouts[s] == h;
    }
  }

  lemma SpareHomes(st: State, d: Chan)
    requires HomesOk(st) && Enabled(st, TakeCommand) && st.queue[0].kind.Outgoing? && st.spare.Some?
    requires var call := st.queue[0].call;
      && st.chans[call].offered.None?
      && d == R.Step(st.chans[call], R.Send(st.spare.value)) && d.offered == st.spare
    ensures HomesOk(DoCommand(st))
  {
    var t := DoCommand(st);
    if st.spare.value.Ok? { assert Holds(st, st.spare.value.stream, Spare); }
    forall s, h ensures Holds(t, s, h) <==> s in t.whereabouts && t.whereabouts[s] == h {
      assert Holds(st, s, h) <==> s in st.whereabouts && st.whereabouts[s] == h;
      assert Holds(st, s, Spare) <==> s in st.whereabouts && st.whereabouts[s] == Spare;
    }
  }

  lemma SpareInv(st: State)
    requires Inv(st) && Enabled(st, TakeCommand) && st.queue[0].kind.Outgoing? && st.spare.Some?
    ensures Inv(DoCommand(st))
  {
    var c := st.chans[st.queue[0].call];
    SendOk(c, st.spare.value);
    SpareHomes(st, R.Step(c, R.Send(st.spare.value)));
    CommandWaiting(st);
  }

  lemma CommandWaiting(st: State)
    requires WaitingOk(st) && Enabled(st, TakeCommand)
    ensures WaitingOk(DoCommand(st))
  {
  }

  lemma CommandInv(st: State)
    requires Inv(st) && Enabled(st, TakeCommand)
    ensures Inv(DoCommand(st))
  {
    if st.queue[0].kind.Outgoing? && st.spare.Some? {
      SpareInv(st);
    } else {
      CommandWaiting(st);
      forall s, h ensures Holds(DoCommand(st), s, h) <==> Holds(st, s, h) {}
    }
  }

  lemma OpenedHomes(st: State, ok: bool)
    requires HomesOk(st) && Enabled(st, Opened(ok)) && st.chans[st.pc.call].offered.None?
    requires DoOpened(st, ok).chans[st.pc.call].offered == Some(Make(st, ok))
    ensures HomesOk(DoOpened(st, ok))
  {
    var t := DoOpened(st, ok);
    forall s, h ensures Holds(t, s, h) <==> s in t.whereabouts && t.whereabouts[s] == h {
      assert Holds(st, s, h) <==> s in st.whereabouts && st.whereabouts[s] == h;
    }
  }

  lemma OpenedInv(st: State, ok: bool)
    requires Inv(st) && Enabled(st, Opened(ok))
    ensures Inv(DoOpened(st, ok))
  {
    OpenedOk(st.chans[st.pc.call], Make(st, ok));
    OpenedHomes(st, ok);
  }

  lemma StepInv(st: State, a: Action)
    requires Inv(st)
    ensures Inv(Step(st, a))
  {
    if Enabled(st, a) {
      match a
      case Call(kind) => CallInv(st, kind);
      case CallerStep(call, step) => CallerInv(st, call, step);
      case ServeNext => ServeInv(st);
      case ChannelStep(step) => ChannelInv(st, step);
      case SendFinished => FinishInv(st);
      case Accepted(ok) => AcceptInv(st, ok);
      case PeerClosed => PcInv(st, Stopped);
      case TakeCommand => CommandInv(st);
      case CommandsGone => PcInv(st, Stopped);
      case Opened(ok) => OpenedInv(st, ok);
      case Discarded => PcInv(st, Serving);
    }
  }

  lemma {:induction false} ExecInv(run: seq<Action>)
    ensures Inv(Exec(run))
  {
    if run != [] {
      ExecInv(run[..|run| - 1]);
      StepInv(Exec(run[..|run| - 1]), run[|run| - 1]);
    }
  }

  // ---------------------------------------------------------------- main results

  /** The four hands a stream can be in while the driver runs. */
  datatype Place = StoredResult(index: nat) | OutgoingResult | InFlight(call: nat) | WithCaller(call: nat)

  ghost predicate At(st: State, s: nat, p: Place) {
    match p
    case StoredResult(i) => i < |st.results| && st.results[i] == Ok(s)
    case OutgoingResult => st.spare == Some(Ok(s))
    case InFlight(call) => call in st.chans &&
      (R.At(st.chans[call], Ok(s), R.InSendFuture) || R.At(st.chans[call], Ok(s), R.InSlot)
       || R.At(st.chans[call], Ok(s), R.BackWithSender))
    case WithCaller(call) => call in st.chans && R.At(st.chans[call], Ok(s), R.WithReceiver)
  }

  /** A value offered on one of the driver's channels is never lost there. */
  lemma ChannelKeeps(c: Chan, item: Item)
    requires ChanOk(c)
    ensures c.offered == Some(item) <==>
      R.At(c, item, R.InSendFuture) || R.At(c, item, R.InSlot)
      || R.At(c, item, R.BackWithSender) || R.At(c, item, R.WithReceiver)
    ensures R.At(c, item, R.WithReceiver) ==>
      !R.At(c, item, R.InSendFuture) && !R.At(c, item, R.InSlot) && !R.At(c, item, R.BackWithSender)
  {
  }

  lemma PlaceOfHolder(st: State, s: nat, p: Place)
    requires Inv(st) && At(st, s, p)
    ensures Holds(st, s, match p case StoredResult(_) => Stored case OutgoingResult => Spare
                               case InFlight(call) => InChannel(call) case WithCaller(call) => InChannel(call))
  {
    if p.InFlight? || p.WithCaller? { ChannelKeeps(st.chans[p.call], Ok(s)); }
  }

  lemma SomePlace(st: State, s: nat) returns (p: Place)
    requires Inv(st) && s < st.streams
    ensures At(st, s, p)
  {
    var h := st.whereabouts[s];
    assert Holds(st, s, h);
    match h
    case Stored =>
      var i :| 0 <= i < |st.results| && st.results[i] == Ok(s);
      p := StoredResult(i);
    case Spare => p := OutgoingResult;
    case InChannel(call) =>
      ChannelKeeps(st.chans[call], Ok(s));
      p := if R.At(st.chans[call], Ok(s), R.WithReceiver) then WithCaller(call) else InFlight(call);
  }

  lemma OnePlace(st: State, s: nat, p: Place, q: Place)
    requires Inv(st) && At(st, s, p) && At(st, s, q)
    ensures p == q
  {
    PlaceOfHolder(st, s, p);
    PlaceOfHolder(st, s, q);
    if p.InFlight? || p.WithCaller? { ChannelKeeps(st.chans[p.call], Ok(s)); }
  }

  /**
   Stream conservation. While the driver runs, however callers come, go and are cancelled, every
   stream the connection has accepted or opened is in exactly one place, so none is lost and none is
   delivered twice; nothing else is anywhere.
   */
  lemma StreamsConserved(run: seq<Action>, s: nat)
    requires !Exec(run).pc.Stopped?
    ensures var st := Exec(run);
      if s < st.streams then
        exists p :: At(st, s, p) && forall q :: At(st, s, q) ==> q == p
      else
        forall p :: !At(st, s, p)
  {
    ExecInv(run);
    var st := Exec(run);
    if s < st.streams {
      var p := SomePlace(st, s);
      forall q | At(st, s, q) ensures q == p { OnePlace(st, s, q, p); }
    } else {
      forall p ensures !At(st, s, p) {
        if At(st, s, p) { PlaceOfHolder(st, s, p); }
      }
    }
  }

  lemma TakenStays(c: Chan, a: R.Action<Item>)
    requires R.Inv(c) && R.Taken(c).Some?
    ensures R.Taken(R.Step(c, a)) == R.Taken(c)
  {
  }

  /** A channel whose value was taken carries that value, which did not come back. */
  lemma TakenWasOffered(c: Chan)
    requires ChanOk(c) && R.Taken(c).Some?
    ensures c.offered.Some? && R.HandedBack(c).None?
  {
  }

  lemma TakenChannelStays(st: State, a: Action, call: nat)
    requires CurrentOk(st) && WaitingOk(st) && call in st.chans && call < st.calls
    requires R.Inv(st.chans[call]) && R.Taken(st.chans[call]).Some?
    requires st.chans[call].offered.Some? && R.HandedBack(st.chans[call]).None?
    ensures var t := Step(st, a); call in t.chans && R.Taken(t.chans[call]) == R.Taken(st.chans[call])
  {
    var c := st.chans[call];
    match a
    case CallerStep(_, step) => TakenStays(c, step);
    case ChannelStep(step) => TakenStays(c, step);
    case _ => assert !Idle(c);
  }

  /** A stream in a caller's hands stays there: the driver never takes one back. */
  lemma DeliveryIsFinal(run: seq<Action>, a: Action, s: nat, call: nat)
    requires At(Exec(run), s, WithCaller(call))
    ensures At(Step(Exec(run), a), s, WithCaller(call))
  {
    ExecInv(run);
    TakenWasOffered(Exec(run).chans[call]);
    TakenChannelStays(Exec(run), a, call);
  }

  /** At the outer select no sender waits while a result is stored, and at most one error is stored at any time. */
  lemma NothingWaitsNeedlessly(run: seq<Action>)
    ensures var st := Exec(run);
      && (st.pc.Select? ==> st.senders == [] || st.results == [])
      && (forall i, j :: 0 <= i < j < |st.results| ==> !(st.results[i].Err? && st.results[j].Err?))
  {
    ExecInv(run);
  }

  /** `outgoing_result` is only ever emptied by sending its content, never overwritten. */
  lemma SpareNeverOverwritten(run: seq<Action>, a: Action)
    requires Exec(run).spare.Some?
    ensures var st, t := Exec(run), Step(Exec(run), a);
      t.spare == st.spare
      || (t.spare.None? && t.pc.SendOut? && t.pc.call in t.chans && t.chans[t.pc.call].offered == st.spare)
  {
    ExecInv(run);
    if a.TakeCommand? && Enabled(Exec(run), a) && Exec(run).queue[0].kind.Outgoing? {
      SendOk(Exec(run).chans[Exec(run).queue[0].call], Exec(run).spare.value);
    }
  }

  lemma OfferedChannelCompletes(c: Chan)
    requires ChanOk(c) && c.offered.Some?
    ensures !R.SenderMissedWakeup(c)
    ensures c.tx.TxCreated? || R.InSend(c) || R.TxEnd(c).Some?
    ensures c.rx.RxDone? ==>
      R.SenderAlone(c, 6).tx == R.TxDone(if R.Taken(c).Some? then R.Sent else R.Refused(c.offered.value))
  {
    if c.rx.RxDone? { R.SenderAloneCompletes(c, 6); }
  }

  /**
   The driver never hangs on a caller that has gone: once that caller's receiver is dropped, the
   `send` it awaits returns within six of its own steps, with the item delivered or handed back.
   */
  lemma DriverNeverHangs(run: seq<Action>)
    requires Exec(run).pc.SendIn? || Exec(run).pc.SendOut?
    ensures Exec(run).pc.call in Exec(run).chans
    ensures var c := Exec(run).chans[Exec(run).pc.call];
      && !R.SenderMissedWakeup(c) && c.offered.Some?
      && (c.tx.TxCreated? || R.InSend(c) || R.TxEnd(c).Some?)
      && (c.rx.RxDone? ==>
            R.SenderAlone(c, 6).tx == R.TxDone(if R.Taken(c).Some? then R.Sent else R.Refused(c.offered.value)))
  {
    ExecInv(run);
    OfferedChannelCompletes(Exec(run).chans[Exec(run).pc.call]);
  }

  // ---------------------------------------------------------------- the loops end

  predicate Sending(pc: Pc) { pc.SendIn? || pc.SendOut? }

  predicate InSend(c: Chan) { c.tx.TxCreated? || R.InSend(c) || R.TxEnd(c).Some? }

  /** What the driver does next in its inner loop or in a send, and what the caller it sends to does next. */
  predicate LoopAction(st: State, a: Action) {
    match a
    case ServeNext => true
    case SendFinished => true
    case ChannelStep(step) =>
      Sending(st.pc) && st.pc.call in st.chans && InSend(st.chans[st.pc.call])
      && step == R.SenderNext(st.chans[st.pc.call])
    case CallerStep(call, step) =>
      Sending(st.pc) && st.pc.call in st.chans && call == st.pc.call && step == R.ReceiverNext(st.chans[call])
    case _ => false
  }

  /** What is left of the loop: the callers still waiting, and the send in progress. */
  function LoopWork(st: State): nat {
    16 * |st.senders| +
      if Sending(st.pc) && st.pc.call in st.chans then 2 + R.Work(st.chans[st.pc.call])
      else if st.pc.Serving? then 1 else 0
  }

  lemma SendingMeets(st: State)
    requires CurrentOk(st) && ChansOk(st) && Sending(st.pc)
    ensures st.pc.call in st.chans && R.Meeting(st.chans[st.pc.call]) && InSend(st.chans[st.pc.call])
  {
    R.MeetingSends(st.chans[st.pc.call]);
  }

  lemma ServeLowers(st: State)
    requires CurrentOk(st) && WaitingOk(st) && Enabled(st, ServeNext)
    ensures LoopWork(DoServe(st)) < LoopWork(st)
  {
    if st.senders != [] && st.results != [] {
      assert Idle(st.chans[st.senders[|st.senders| - 1]]);
    }
  }

  lemma LoopLowers(st: State, a: Action)
    requires CurrentOk(st) && WaitingOk(st) && ChansOk(st) && LoopAction(st, a)
    ensures Step(st, a) == st || LoopWork(Step(st, a)) < LoopWork(st)
  {
    if Enabled(st, a) {
      match a
      case ServeNext => ServeLowers(st);
      case SendFinished =>
      case ChannelStep(_) =>
        SendingMeets(st);
        R.SenderWorks(st.chans[st.pc.call]);
        ChannelLowers(st, a);
      case CallerStep(call, _) =>
        SendingMeets(st);
        R.ReceiverWorks(st.chans[call]);
        SameChannel(st, call);
    }
  }

  lemma SameChannel(st: State, call: nat)
    requires call in st.chans
    ensures st.(chans := st.chans[call := st.chans[call]]) == st
  {
    assert st.chans[call := st.chans[call]] == st.chans;
  }

  lemma ChannelLowers(st: State, a: Action)
    requires a.ChannelStep? && Enabled(st, a) && Sending(st.pc)
    requires var c := st.chans[st.pc.call]; R.Step(c, a.step) == c || R.Work(R.Step(c, a.step)) < R.Work(c)
    ensures Step(st, a) == st || LoopWork(Step(st, a)) < LoopWork(st)
  {
    SameChannel(st, st.pc.call);
  }

  /** There is always something to do that changes something. */
  lemma LoopGoesOn(st: State) returns (a: Action)
    requires CurrentOk(st) && WaitingOk(st) && ChansOk(st) && (st.pc.Serving? || Sending(st.pc))
    ensures LoopAction(st, a) && Step(st, a) != st
  {
    if st.pc.Serving? {
      a := ServeNext;
    } else {
      SendingMeets(st);
      var c := st.chans[st.pc.call];
      if c.tx.TxDone? {
        a := SendFinished;
      } else {
        a := ChannelGoesOn(st, c);
      }
    }
  }

  lemma ChannelGoesOn(st: State, c: Chan) returns (a: Action)
    requires Sending(st.pc) && st.pc.call in st.chans && c == st.chans[st.pc.call]
    requires R.Meeting(c) && InSend(c) && !c.tx.TxDone?
    ensures LoopAction(st, a) && Step(st, a) != st
  {
    if R.Stuck(c) { R.StuckMeansDone(c); }
    if R.Turn(c, true) != c {
      a := ChannelStep(R.SenderNext(c));
      assert Step(st, a).chans[st.pc.call] != st.chans[st.pc.call];
    } else {
      a := CallerStep(st.pc.call, R.ReceiverNext(c));
      assert Step(st, a).chans[st.pc.call] != st.chans[st.pc.call];
    }
  }

  /** The driver and the caller it sends to take their steps, in any order. */
  function LoopExec(st: State, actions: seq<Action>): State {
    if actions == [] then st else Step(LoopExec(st, actions[..|actions| - 1]), actions[|actions| - 1])
  }

  predicate LoopRun(st: State, actions: seq<Action>) {
    actions != [] ==>
      LoopRun(st, actions[..|actions| - 1]) &&
      LoopAction(LoopExec(st, actions[..|actions| - 1]), actions[|actions| - 1])
  }

  /** The steps that changed anything. */
  function Changes(st: State, actions: seq<Action>): nat {
    if actions == [] then 0
    else
      var n := |actions| - 1;
      Changes(st, actions[..n]) + if LoopExec(st, actions) != LoopExec(st, actions[..n]) then 1 else 0
  }

  lemma {:induction false} LoopWorks(st: State, actions: seq<Action>)
    requires Inv(st) && LoopRun(st, actions)
    ensures Inv(LoopExec(st, actions)) && Changes(st, actions) + LoopWork(LoopExec(st, actions)) <= LoopWork(st)
  {
    if actions != [] {
      var before, a := actions[..|actions| - 1], actions[|actions| - 1];
      LoopWorks(st, before);
      StepInv(LoopExec(st, before), a);
      LoopLowers(LoopExec(st, before), a);
    }
  }

  lemma LoopBound(st: State)
    ensures LoopWork(st) <= 16 * |st.senders| + 15
  {
  }

  lemma LoopAlive(st: State)
    requires Inv(st) && (st.pc.Serving? || Sending(st.pc))
    ensures exists a :: LoopAction(st, a) && Step(st, a) != st
  {
    var a := LoopGoesOn(st);
  }

  /**
   The inner loop ends, and so does a send of an outgoing stream, with callers that are alive as well
   as with callers that have gone: from any reachable point, however the driver and the caller it
   sends to are scheduled, all but a bounded number of their steps are spent waiting, and they can go
   on as long as the driver is in the loop or in the send.
   */
  lemma LoopsEnd(run: seq<Action>, actions: seq<Action>)
    requires LoopRun(Exec(run), actions)
    ensures Changes(Exec(run), actions) <= 16 * |Exec(run).senders| + 15
    ensures var st := LoopExec(Exec(run), actions);
      st.pc.Serving? || Sending(st.pc) ==> exists a :: LoopAction(st, a) && Step(st, a) != st
  {
    ExecInv(run);
    LoopWorks(Exec(run), actions);
    LoopBound(Exec(run));
    var st := LoopExec(Exec(run), actions);
    if st.pc.Serving? || Sending(st.pc) { LoopAlive(st); }
  }

  // ---------------------------------------------------------------- the code of the driver

  /** `Vec::retain(|result| result.is_ok())`, kept in order. */
  method RetainOk(items: seq<Item>) returns (kept: seq<Item>)
    ensures kept == OkOnly(items)
  {
    kept := [];
    var i := |items|;
    while i > 0
      invariant 0 <= i <= |items|
      invariant kept == OkOnly(items[i..])
    {
      i := i - 1;
      if items[i].Ok? { kept := [items[i]] + kept; }
      assert items[i..][1..] == items[i + 1..];
    }
    assert items[0..] == items;
  }

  /** The local variables of `drive_connection`, and its code between two awaits. */
  class Driver {
    var incomingResults: seq<Item>
    var incomingSenders: seq<nat>
    var outgoingResult: Option<Item>
    var pc: Pc
    var queue: seq<Command>
    var chans: map<nat, Chan>
    var calls: nat
    var streams: nat
    ghost var whereabouts: map<nat, Holder>

    ghost function View(): State
      reads this
    {
      State(incomingResults, incomingSenders, outgoingResult, pc, queue, chans, calls, streams, whereabouts)
    }

    constructor ()
      ensures View() == INIT
    {
      incomingResults, incomingSenders, outgoingResult := [], [], None;
      pc, queue, chans, calls, streams := Serving, [], map[], 0, 0;
      whereabouts := map[];
    }

    method BeginSend(call: nat, item: Item)
      requires call in chans
      modifies this`chans, this`whereabouts
      ensures View() == StartSend(old(View()), call, item)
    {
      chans := chans[call := R.Step(chans[call], R.Send(item))];
      if item.Ok? { whereabouts := whereabouts[item.stream := InChannel(call)]; }
    }

    /** One iteration of the inner loop: pair the last waiting caller with the last stored result. */
    method ServeNextCaller()
      requires Enabled(View(), ServeNext)
      modifies this
      ensures View() == Step(old(View()), ServeNext)
    {
      if incomingSenders == [] {
        pc := Select;
        return;
      }
      var tx := incomingSenders[|incomingSenders| - 1];
      incomingSenders := incomingSenders[..|incomingSenders| - 1];
      if incomingResults == [] {
        incomingSenders := incomingSenders + [tx];
        pc := Select;
      } else {
        var result := incomingResults[|incomingResults| - 1];
        incomingResults := incomingResults[..|incomingResults| - 1];
        BeginSend(tx, result);
        pc := SendIn(tx);
      }
    }

    /** `send` has returned: a refused item goes back to where it came from. */
    method FinishSend()
      requires Enabled(View(), SendFinished)
      modifies this
      ensures View() == Step(old(View()), SendFinished)
    {
      var call := pc.call;
      match chans[call].tx.end {
        case Refused(item) =>
          if pc.SendIn? {
            incomingResults := incomingResults + [item];
          } else {
            outgoingResult := Some(item);
          }
          if item.Ok? { whereabouts := whereabouts[item.stream := if pc.SendIn? then Stored else Spare]; }
          chans := chans - {call};
        case _ =>
      }
      pc := Serving;
    }

    /** The connection yields an incoming stream, or an error. */
    method StoreIncoming(ok: bool)
      requires Enabled(View(), Accepted(ok))
      modifies this
      ensures View() == Step(old(View()), Accepted(ok))
    {
      if ok {
        incomingResults := incomingResults + [Ok(streams)];
        whereabouts := whereabouts[streams := Stored];
        streams := streams + 1;
      } else {
        incomingResults := RetainOk(incomingResults);
        incomingResults := incomingResults + [Err];
      }
      pc := Serving;
    }

    /** Dispatch on the next command. */
    method HandleCommand()
      requires Enabled(View(), TakeCommand)
      modifies this
      ensures View() == Step(old(View()), TakeCommand)
    {
      var command := queue[0];
      queue := queue[1..];
      match command.kind {
        case Incoming =>
          incomingSenders := incomingSenders + [command.call];
          pc := Serving;
        case Outgoing =>
          if outgoingResult.Some? {
            var result := outgoingResult.value;
            outgoingResult := None;
            BeginSend(command.call, result);
            pc := SendOut(command.call);
          } else {
            pc := Opening(command.call);
          }
        case Close => pc := Stopped;
      }
    }

    /** The outgoing stream is ready first: `closed()` is cancelled and the stream is sent. */
    method SendOpened(ok: bool)
      requires Enabled(View(), Opened(ok))
      modifies this
      ensures View() == Step(old(View()), Opened(ok))
    {
      var call := pc.call;
      var item := if ok then Ok(streams) else Err;
      chans := chans[call := R.Step(chans[call], R.ClosedCancel)];
      BeginSend(call, item);
      if ok { streams := streams + 1; }
      pc := SendOut(call);
    }
  }
}
