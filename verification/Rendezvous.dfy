/**
 The cancel-safe rendezvous channel (net/src/sync.rs).

 The two futures run concurrently. Each is split into atomic steps: one access to the shared slot
 (a critical section of its mutex), one access to the drop flags, or one `Notify` operation. A
 future can be dropped only where it is suspended, that is before its first poll or while it is
 registered as a waiter.
 */
module Rendezvous {
  import opened Options

  // ---------------------------------------------------------------- tokio::sync::Notify

  datatype Waiter = Absent | Parked | Notified

  /** A `Notify` with its stored permit and its (at most one) registered waiter. */
  datatype Notify = Notify(permit: bool, waiter: Waiter) {

    /** `notify_one`: hand the notification to a parked waiter, or else store the one permit. */
    function NotifyOne(): Notify {
      if waiter.Parked? then this.(waiter := Notified) else this.(permit := true)
    }

    /** Polling `notified()` completes when a permit or a notification is there to be consumed. */
    predicate Ready() {
      waiter.Notified? || (waiter.Absent? && permit)
    }

    /** The state after polling `notified()`: the signal is consumed or the waiter is registered. */
    function Poll(): Notify {
      if waiter.Notified? then this.(waiter := Absent)
      else if waiter.Absent? && permit then this.(permit := false)
      else this.(waiter := Parked)
    }

    /** Dropping a `notified()` future: a notification it did not consume is passed on. */
    function DropWaiter(): Notify {
      if waiter.Notified? then Notify(true, Absent) else this.(waiter := Absent)
    }

    /** A signal that the next poll will consume. */
    predicate Signalled() { permit || waiter.Notified? }
  }

  const FRESH := Notify(false, Absent)

  // ---------------------------------------------------------------- configurations

  /** How the sending side ended: `Ok(())`, `Err(value)`, or dropped without returning. */
  datatype SendEnd<V> = Sent | Refused(value: V) | Abandoned

  /** How the receiving side ended: `Ok(value)`, `Err(RecvError)`, or dropped without returning. */
  datatype RecvEnd<V> = Received(value: V) | Failed | Cancelled

  /** Program counter of the sending side. */
  datatype Tx<V> =
    | TxHeld                       // a `Sender`, no future running
    | TxClosing(woken: bool)       // closed(): about to test RX_DROP
    | TxClosedWait                 // closed(): at the await
    | TxCreated(value: V)          // send(value): future not yet polled
    | TxStored                     // value stored, receiver not yet notified
    | TxWait                       // send: at the await
    | TxCheck                      // send: woken, about to lock the slot
    | TxReturning(end: SendEnd<V>) // about to set TX_DROP
    | TxDropping(end: SendEnd<V>)  // TX_DROP set, receiver not yet notified
    | TxDone(end: SendEnd<V>)

  /** Program counter of the receiving side. */
  datatype Rx<V> =
    | RxHeld                       // a `Receiver`, or a recv() future not yet polled
    | RxWait                       // recv: at the await
    | RxTake                       // recv: woken, about to lock the slot
    | RxTook(value: V)             // slot emptied, sender not yet notified
    | RxMissed                     // slot was empty, about to test TX_DROP
    | RxReturning(end: RecvEnd<V>) // about to set RX_DROP
    | RxDropping(end: RecvEnd<V>)  // RX_DROP set, sender not yet notified
    | RxDone(end: RecvEnd<V>)

  /**
   One channel. `offered`, `stored` and `closedByWake` are history: the value given to `send`, the
   value ever written to the slot, and whether some `closed()` call returned after waiting.
   */
  datatype Config<V> = Config(
    slot: Option<V>, txDrop: bool, rxDrop: bool, txNotify: Notify, rxNotify: Notify,
    tx: Tx<V>, rx: Rx<V>,
    offered: Option<V>, stored: Option<V>, closedByWake: bool)

  function Init<V>(): Config<V> {
    Config(None, false, false, FRESH, FRESH, TxHeld, RxHeld, None, None, false)
  }

  datatype Action<V> =
    // sender
    | Closed | ClosedTest | ClosedPoll | ClosedCancel
    | Send(value: V) | SendUnpolledDrop | Store | SignalTx | SendPoll | SendCheck | SendCancel
    | SenderDrop | SetTxDrop | SignalTxDrop
    // receiver
    | RecvPoll | RecvTake | SignalRx | RecvTest | RecvCancel
    | ReceiverDrop | SetRxDrop | SignalRxDrop

  predicate SenderAction<V>(a: Action<V>) {
    !ReceiverAction(a)
  }

  predicate ReceiverAction<V>(a: Action<V>) {
    a.RecvPoll? || a.RecvTake? || a.SignalRx? || a.RecvTest? || a.RecvCancel?
    || a.ReceiverDrop? || a.SetRxDrop? || a.SignalRxDrop?
  }

  predicate Enabled<V>(c: Config<V>, a: Action<V>) {
    match a
    case Closed => c.tx.TxHeld?
    case ClosedTest => c.tx.TxClosing?
    case ClosedPoll => c.tx.TxClosedWait?
    case ClosedCancel => c.tx.TxClosedWait? && !c.rxNotify.waiter.Absent?
    case Send(_) => c.tx.TxHeld?
    case SendUnpolledDrop => c.tx.TxCreated?
    case Store => c.tx.TxCreated?
    case SignalTx => c.tx.TxStored?
    case SendPoll => c.tx.TxWait?
    case SendCheck => c.tx.TxCheck?
    case SendCancel => c.tx.TxWait? && !c.rxNotify.waiter.Absent?
    case SenderDrop => c.tx.TxHeld?
    case SetTxDrop => c.tx.TxReturning?
    case SignalTxDrop => c.tx.TxDropping?
    case RecvPoll => c.rx.RxHeld? || c.rx.RxWait?
    case RecvTake => c.rx.RxTake?
    case SignalRx => c.rx.RxTook?
    case RecvTest => c.rx.RxMissed?
    case RecvCancel => c.rx.RxWait? && !c.txNotify.waiter.Absent?
    case ReceiverDrop => c.rx.RxHeld?
    case SetRxDrop => c.rx.RxReturning?
    case SignalRxDrop => c.rx.RxDropping?
  }

  /** The sender's atomic steps. */
  function TxStep<V>(c: Config<V>, a: Action<V>): Config<V>
    requires SenderAction(a) && Enabled(c, a)
  {
    match a
    case Closed => c.(tx := TxClosing(false))
    case ClosedTest =>
      if c.rxDrop then c.(tx := TxHeld, closedByWake := c.closedByWake || c.tx.woken)
      else c.(tx := TxClosedWait)
    case ClosedPoll =>
      c.(rxNotify := c.rxNotify.Poll(), tx := if c.rxNotify.Ready() then TxClosing(true) else c.tx)
    case ClosedCancel => c.(rxNotify := c.rxNotify.DropWaiter(), tx := TxHeld)
    case Send(v) => c.(tx := TxCreated(v), offered := Some(v))
    case SendUnpolledDrop => c.(tx := TxReturning(Abandoned))
    case Store => c.(slot := Some(c.tx.value), stored := Some(c.tx.value), tx := TxStored)
    case SignalTx => c.(txNotify := c.txNotify.NotifyOne(), tx := TxWait)
    case SendPoll =>
      c.(rxNotify := c.rxNotify.Poll(), tx := if c.rxNotify.Ready() then TxCheck else c.tx)
    case SendCheck =>
      if c.slot.None? then c.(tx := TxReturning(Sent))
      else if c.rxDrop then c.(slot := None, tx := TxReturning(Refused(c.slot.value)))
      else c.(tx := TxWait)
    case SendCancel => c.(rxNotify := c.rxNotify.DropWaiter(), tx := TxReturning(Abandoned))
    case SenderDrop => c.(tx := TxReturning(Abandoned))
    case SetTxDrop => c.(txDrop := true, tx := TxDropping(c.tx.end))
    case SignalTxDrop => c.(txNotify := c.txNotify.NotifyOne(), tx := TxDone(c.tx.end))
  }

  /** The receiver's atomic steps. */
  function RxStep<V>(c: Config<V>, a: Action<V>): Config<V>
    requires ReceiverAction(a) && Enabled(c, a)
  {
    match a
    case RecvPoll =>
      c.(txNotify := c.txNotify.Poll(), rx := if c.txNotify.Ready() then RxTake else RxWait)
    case RecvTake =>
      if c.slot.Some? then c.(slot := None, rx := RxTook(c.slot.value)) else c.(rx := RxMissed)
    case SignalRx => c.(rxNotify := c.rxNotify.NotifyOne(), rx := RxReturning(Received(c.rx.value)))
    case RecvTest => c.(rx := if c.txDrop then RxReturning(Failed) else RxWait)
    case RecvCancel => c.(txNotify := c.txNotify.DropWaiter(), rx := RxReturning(Cancelled))
    case ReceiverDrop => c.(rx := RxReturning(Cancelled))
    case SetRxDrop => c.(rxDrop := true, rx := RxDropping(c.rx.end))
    case SignalRxDrop => c.(rxNotify := c.rxNotify.NotifyOne(), rx := RxDone(c.rx.end))
  }

  /** One atomic step; an action that is not enabled leaves the configuration as it is. */
  function Step<V>(c: Config<V>, a: Action<V>): Config<V> {
    if !Enabled(c, a) then c
    else if ReceiverAction(a) then RxStep(c, a)
    else TxStep(c, a)
  }

  /** The configuration after an arbitrary interleaving. */
  function Exec<V>(run: seq<Action<V>>): Config<V> {
    if run == [] then Init() else Step(Exec(run[..|run| - 1]), run[|run| - 1])
  }

  // ---------------------------------------------------------------- the inductive invariant

  function TxEnd<V>(c: Config<V>): Option<SendEnd<V>> {
    if c.tx.TxReturning? || c.tx.TxDropping? || c.tx.TxDone? then Some(c.tx.end) else None
  }

  function RxEnd<V>(c: Config<V>): Option<RecvEnd<V>> {
    if c.rx.RxReturning? || c.rx.RxDropping? || c.rx.RxDone? then Some(c.rx.end) else None
  }

  /** The value the receiving side took out of the slot. */
  function Taken<V>(c: Config<V>): Option<V> {
    if c.rx.RxTook? then Some(c.rx.value)
    else match RxEnd(c)
      case Some(Received(v)) => Some(v)
      case _ => None
  }

  /** The value `send` handed back. */
  function HandedBack<V>(c: Config<V>): Option<V> {
    match TxEnd(c)
    case Some(Refused(v)) => Some(v)
    case _ => None
  }

  /** `send` has written the slot and not yet ended. */
  predicate InSend<V>(c: Config<V>) {
    c.tx.TxStored? || c.tx.TxWait? || c.tx.TxCheck?
  }

  /** `send` may still have to wait. */
  predicate MaySend<V>(c: Config<V>) {
    || c.tx.TxHeld? || c.tx.TxClosedWait? || (c.tx.TxClosing? && !c.tx.woken)
    || c.tx.TxCreated? || c.tx.TxStored? || c.tx.TxWait?
  }

  ghost predicate FlagInv<V>(c: Config<V>) {
    && c.txDrop == (c.tx.TxDropping? || c.tx.TxDone?)
    && c.rxDrop == (c.rx.RxDropping? || c.rx.RxDone?)
    && (!c.txNotify.waiter.Absent? ==> c.rx.RxWait? && (c.txNotify.waiter.Parked? ==> !c.txNotify.permit))
    && (!c.rxNotify.waiter.Absent? ==>
          (c.tx.TxWait? || c.tx.TxClosedWait?) && (c.rxNotify.waiter.Parked? ==> !c.rxNotify.permit))
  }

  /** What was offered and stored, and how far `send` has got. */
  ghost predicate OfferInv<V>(c: Config<V>) {
    && (c.tx.TxCreated? ==> c.offered == Some(c.tx.value))
    && (c.stored.Some? ==> c.offered == c.stored)
    && (c.stored.Some? ==> InSend(c) || TxEnd(c).Some?)
    && (InSend(c) ==> c.stored.Some?)
    && (c.offered.None? ==> c.stored.None? && (TxEnd(c).Some? ==> TxEnd(c) == Some(Abandoned)))
    && (c.offered.Some? ==> !c.tx.TxHeld? && !c.tx.TxClosing? && !c.tx.TxClosedWait?)
    && (c.rx.RxMissed? || RxEnd(c) == Some(Failed) ==> c.stored.None? && c.txDrop)
  }

  /** Where the value is. */
  ghost predicate PlaceInv<V>(c: Config<V>) {
    && (TxEnd(c) == Some(Sent) ==> Taken(c).Some?)
    && (c.slot.Some? ==> c.slot == c.stored && Taken(c).None? && HandedBack(c).None?)
    && (Taken(c).Some? ==> Taken(c) == c.stored && HandedBack(c).None?)
    && (HandedBack(c).Some? ==> HandedBack(c) == c.stored && c.rx.RxDone?)
    && (c.stored.Some? && c.slot.None? ==> Taken(c).Some? || HandedBack(c).Some?)
  }

  /** Signals to the receiver: exactly when there is something to see. */
  ghost predicate TxSignalInv<V>(c: Config<V>) {
    && (c.rx.RxHeld? || c.rx.RxWait? ==>
          && (c.txNotify.Signalled() ==> c.stored.Some? || c.txDrop)
          && (c.tx.TxDone? || (c.stored.Some? && !c.tx.TxStored?) ==> c.txNotify.Signalled()))
    && (c.rx.RxTake? ==> c.slot.Some? || (c.txDrop && c.stored.None?))
  }

  /** Signals to the sender. */
  ghost predicate RxSignalInv<V>(c: Config<V>) {
    && (c.rxNotify.Signalled() ==> c.rx.RxDone? || (Taken(c).Some? && !c.rx.RxTook?))
    && (c.rxNotify.permit && c.rxNotify.waiter.Notified? ==> Taken(c).Some?)
    && (c.tx.TxCheck? ==> c.slot.None? || c.rx.RxDone?)
    && (c.tx.TxClosing? && c.tx.woken ==> c.rx.RxDone?)
    && (c.closedByWake ==> c.rx.RxDone? && Taken(c).None? && !c.rxNotify.Signalled())
    && (c.tx.TxClosing? && c.tx.woken ==> !c.rxNotify.Signalled())
    && (c.tx.TxWait? && Taken(c).Some? && !c.rx.RxTook? ==> c.rxNotify.Signalled())
    && (c.tx.TxStored? && Taken(c).Some? && !c.rx.RxTook? ==> c.rxNotify.Signalled())
    && (c.rx.RxDone? && !c.closedByWake && MaySend(c) ==> c.rxNotify.Signalled())
  }

  ghost predicate Inv<V>(c: Config<V>) {
    FlagInv(c) && OfferInv(c) && PlaceInv(c) && TxSignalInv(c) && RxSignalInv(c)
  }

  lemma TxStepInv<V>(c: Config<V>, a: Action<V>)
    requires Inv(c) && SenderAction(a) && Enabled(c, a)
    ensures Inv(TxStep(c, a))
  {
    TxStepFlags(c, a);
    TxStepOffer(c, a);
    TxStepPlace(c, a);
    TxStepTxSignals(c, a);
    TxStepRxSignals(c, a);
  }

  lemma TxStepFlags<V>(c: Config<V>, a: Action<V>)
    requires Inv(c) && SenderAction(a) && Enabled(c, a)
    ensures FlagInv(TxStep(c, a))
  {
  }

  lemma TxStepOffer<V>(c: Config<V>, a: Action<V>)
    requires Inv(c) && SenderAction(a) && Enabled(c, a)
    ensures OfferInv(TxStep(c, a))
  {
  }

  lemma TxStepPlace<V>(c: Config<V>, a: Action<V>)
    requires Inv(c) && SenderAction(a) && Enabled(c, a)
    ensures PlaceInv(TxStep(c, a))
  {
  }

  lemma TxStepTxSignals<V>(c: Config<V>, a: Action<V>)
    requires Inv(c) && SenderAction(a) && Enabled(c, a)
    ensures TxSignalInv(TxStep(c, a))
  {
  }

  lemma TxStepRxSignals<V>(c: Config<V>, a: Action<V>)
    requires Inv(c) && SenderAction(a) && Enabled(c, a)
    ensures RxSignalInv(TxStep(c, a))
  {
  }

  lemma RxStepInv<V>(c: Config<V>, a: Action<V>)
    requires Inv(c) && ReceiverAction(a) && Enabled(c, a)
    ensures Inv(RxStep(c, a))
  {
    RxStepFlags(c, a);
    RxStepOffer(c, a);
    RxStepPlace(c, a);
    RxStepTxSignals(c, a);
    RxStepRxSignals(c, a);
  }

  lemma RxStepFlags<V>(c: Config<V>, a: Action<V>)
    requires Inv(c) && ReceiverAction(a) && Enabled(c, a)
    ensures FlagInv(RxStep(c, a))
  {
  }

  lemma RxStepOffer<V>(c: Config<V>, a: Action<V>)
    requires Inv(c) && ReceiverAction(a) && Enabled(c, a)
    ensures OfferInv(RxStep(c, a))
  {
  }

  lemma RxStepPlace<V>(c: Config<V>, a: Action<V>)
    requires Inv(c) && ReceiverAction(a) && Enabled(c, a)
    ensures PlaceInv(RxStep(c, a))
  {
  }

  lemma RxStepTxSignals<V>(c: Config<V>, a: Action<V>)
    requires Inv(c) && ReceiverAction(a) && Enabled(c, a)
    ensures TxSignalInv(RxStep(c, a))
  {
  }

  lemma RxStepRxSignals<V>(c: Config<V>, a: Action<V>)
    requires Inv(c) && ReceiverAction(a) && Enabled(c, a)
    ensures RxSignalInv(RxStep(c, a))
  {
  }

  lemma StepInv<V>(c: Config<V>, a: Action<V>)
    requires Inv(c)
    ensures Inv(Step(c, a))
  {
    if Enabled(c, a) {
      if ReceiverAction(a) { RxStepInv(c, a); } else { TxStepInv(c, a); }
    }
  }

  lemma {:induction false} ExecInv<V>(run: seq<Action<V>>)
    ensures Inv(Exec(run))
  {
    if run != [] {
      ExecInv(run[..|run| - 1]);
      StepInv(Exec(run[..|run| - 1]), run[|run| - 1]);
    }
  }

  // ---------------------------------------------------------------- ownership

  datatype Place = InSendFuture | InSlot | WithReceiver | BackWithSender | Lost

  /** The value `v` is at place `p`; lost means offered and at none of the others. */
  ghost predicate At<V>(c: Config<V>, v: V, p: Place) {
    match p
    case InSendFuture => c.tx == TxCreated(v)
    case InSlot => c.slot == Some(v) && !(c.tx.TxDone? && c.rx.RxDone?)
    case WithReceiver => Taken(c) == Some(v)
    case BackWithSender => HandedBack(c) == Some(v)
    case Lost => c.offered == Some(v) && !Found(c, v)
  }

  /** Some side still has the value or can get at it: a slot that both sides have left is out of reach. */
  ghost predicate Found<V>(c: Config<V>, v: V) {
    || c.tx == TxCreated(v)
    || (c.slot == Some(v) && !(c.tx.TxDone? && c.rx.RxDone?))
    || Taken(c) == Some(v)
    || HandedBack(c) == Some(v)
  }

  /** In every interleaving a value given to `send` is at exactly one place, and no other value is anywhere. */
  lemma ExactlyOnePlace<V>(run: seq<Action<V>>, v: V)
    ensures var c := Exec(run);
      if c.offered == Some(v) then
        exists p :: At(c, v, p) && forall q :: At(c, v, q) ==> q == p
      else
        forall p :: !At(c, v, p)
  {
    var c := Exec(run);
    ExecInv(run);
    if c.offered == Some(v) {
      var p :=
        if c.stored.None? then (if TxEnd(c).Some? then Lost else InSendFuture)
        else if c.slot.Some? then (if c.tx.TxDone? && c.rx.RxDone? then Lost else InSlot)
        else if Taken(c).Some? then WithReceiver
        else BackWithSender;
      assert At(c, v, p);
    }
  }

  /** At some point of the run the `send` future was dropped before it was ever polled. */
  predicate DroppedUnpolled<V(==)>(run: seq<Action<V>>) {
    exists i :: 0 <= i < |run| && run[i].SendUnpolledDrop? && Exec(run[..i]).tx.TxCreated?
  }

  /** In terms of the channel: never stored although the sender has ended, or left in the slot by both. */
  lemma LostShape<V>(c: Config<V>, v: V)
    requires Inv(c) && c.offered == Some(v)
    ensures At(c, v, Lost) <==>
      (c.stored.None? && TxEnd(c).Some?)
      || (c.slot == Some(v) && c.tx == TxDone(Abandoned) && c.rx == RxDone(Cancelled))
  {
  }

  /** The value was offered, never stored, and the sender has ended. */
  predicate Unstored<V>(c: Config<V>) {
    c.offered.Some? && c.stored.None? && TxEnd(c).Some?
  }

  lemma UnpolledRxStep<V>(c: Config<V>, a: Action<V>)
    requires ReceiverAction(a) && Enabled(c, a)
    ensures Unstored(RxStep(c, a)) <==> Unstored(c)
  {
  }

  lemma UnpolledTxStep<V>(c: Config<V>, a: Action<V>)
    requires OfferInv(c) && SenderAction(a) && Enabled(c, a)
    ensures Unstored(TxStep(c, a)) <==> Unstored(c) || a.SendUnpolledDrop?
  {
  }

  lemma UnpolledStep<V>(c: Config<V>, a: Action<V>)
    requires OfferInv(c)
    ensures Unstored(Step(c, a)) <==> Unstored(c) || (a.SendUnpolledDrop? && c.tx.TxCreated?)
  {
    if Enabled(c, a) {
      if ReceiverAction(a) { UnpolledRxStep(c, a); } else { UnpolledTxStep(c, a); }
    }
  }

  lemma DroppedUnpolledSnoc<V>(run: seq<Action<V>>)
    requires run != []
    ensures var n := |run| - 1;
      DroppedUnpolled(run) <==>
        DroppedUnpolled(run[..n]) || (run[n].SendUnpolledDrop? && Exec(run[..n]).tx.TxCreated?)
  {
    var n := |run| - 1;
    assert forall i :: 0 <= i < n ==> run[..n][..i] == run[..i] && run[..n][i] == run[i];
    if DroppedUnpolled(run[..n]) {
      var i :| 0 <= i < n && run[..n][i].SendUnpolledDrop? && Exec(run[..n][..i]).tx.TxCreated?;
      assert run[i].SendUnpolledDrop? && Exec(run[..i]).tx.TxCreated?;
    }
  }

  /** A value offered and never stored by a sender that has ended was dropped with its unpolled future. */
  lemma {:induction false} UnstoredMeansUnpolled<V>(run: seq<Action<V>>)
    ensures Unstored(Exec(run)) <==> DroppedUnpolled(run)
  {
    if run != [] {
      var n := |run| - 1;
      ExecInv(run[..n]);
      UnstoredMeansUnpolled(run[..n]);
      UnpolledStep(Exec(run[..n]), run[n]);
      DroppedUnpolledSnoc(run);
    }
  }

  /**
   The value is lost exactly when both sides were dropped without a transfer, or when the `send`
   future was dropped before its first poll. The documented guarantee (net/src/sync.rs:7-11) leaves
   the second case out.
   */
  lemma LostIff<V>(run: seq<Action<V>>, v: V)
    requires Exec(run).offered == Some(v)
    ensures var c := Exec(run);
      At(c, v, Lost) <==>
        DroppedUnpolled(run) || (c.tx == TxDone(Abandoned) && c.rx == RxDone(Cancelled))
  {
    ExecInv(run);
    LostShape(Exec(run), v);
    UnstoredMeansUnpolled(run);
  }

  lemma AgreementOf<V>(c: Config<V>)
    requires OfferInv(c) && PlaceInv(c) && FlagInv(c)
    ensures TxEnd(c) == Some(Sent) ==> c.offered.Some? && Taken(c) == c.offered
    ensures HandedBack(c).Some? ==> c.offered == HandedBack(c) && c.rx == RxDone(Cancelled)
    ensures Taken(c).Some? ==> c.offered == Taken(c) && TxEnd(c) in {None, Some(Sent), Some(Abandoned)}
    ensures RxEnd(c) == Some(Failed) ==> c.stored.None? && c.txDrop
  {
  }

  /** What either side reports is what happened on the other. */
  lemma Agreement<V>(run: seq<Action<V>>)
    ensures var c := Exec(run);
      && (TxEnd(c) == Some(Sent) ==> c.offered.Some? && Taken(c) == c.offered)
      && (forall v :: TxEnd(c) == Some(Refused(v)) ==>
            c.offered == Some(v) && c.rx == RxDone(Cancelled))
      && (forall v :: RxEnd(c) == Some(Received(v)) ==>
            c.offered == Some(v) && TxEnd(c) in {None, Some(Sent), Some(Abandoned)})
      && (RxEnd(c) == Some(Failed) ==> c.stored.None? && c.txDrop)
  {
    ExecInv(run);
    AgreementOf(Exec(run));
  }

  lemma StepKeepsEnds<V>(c: Config<V>, a: Action<V>)
    ensures TxEnd(c).Some? ==> TxEnd(Step(c, a)) == TxEnd(c)
    ensures RxEnd(c).Some? ==> RxEnd(Step(c, a)) == RxEnd(c)
  {
  }

  lemma StepKeepsStored<V>(c: Config<V>, a: Action<V>)
    requires OfferInv(c)
    ensures c.stored.Some? ==> Step(c, a).stored == c.stored
  {
  }

  /** An outcome that was reported stays: no later step revises it. */
  lemma {:induction false} OutcomesAreFinal<V>(run: seq<Action<V>>, more: seq<Action<V>>)
    ensures TxEnd(Exec(run)).Some? ==> TxEnd(Exec(run + more)) == TxEnd(Exec(run))
    ensures RxEnd(Exec(run)).Some? ==> RxEnd(Exec(run + more)) == RxEnd(Exec(run))
    ensures Exec(run).stored.Some? ==> Exec(run + more).stored == Exec(run).stored
  {
    if more == [] {
      assert run + more == run;
    } else {
      var n := |more| - 1;
      OutcomesAreFinal(run, more[..n]);
      assert (run + more)[..|run + more| - 1] == run + more[..n];
      ExecInv(run + more[..n]);
      StepKeepsEnds(Exec(run + more[..n]), more[n]);
      StepKeepsStored(Exec(run + more[..n]), more[n]);
    }
  }

  lemma TxEndCauses<V>(c: Config<V>, a: Action<V>)
    requires Enabled(c, a) && TxEnd(c).None? && (c.tx.TxCheck? ==> c.slot.None? || c.rxDrop)
    ensures TxEnd(Step(c, a)) == Some(Abandoned) <==> a.SendUnpolledDrop? || a.SendCancel? || a.SenderDrop?
    ensures TxEnd(Step(c, a)) in {None, Some(Abandoned)} <==> !a.SendCheck?
  {
  }

  lemma RxEndCauses<V>(c: Config<V>, a: Action<V>)
    requires Enabled(c, a) && RxEnd(c).None? && (c.rx.RxMissed? ==> c.txDrop)
    ensures RxEnd(Step(c, a)) == Some(Cancelled) <==> a.RecvCancel? || a.ReceiverDrop?
    ensures RxEnd(Step(c, a)) == Some(Failed) <==> a.RecvTest?
    ensures RxEnd(Step(c, a)) in {None, Some(Cancelled), Some(Failed)} <==> !a.SignalRx?
  {
  }

  /** Where each end comes from: a side ends as dropped exactly when it, or the future it runs, is dropped. */
  lemma EndCauses<V>(run: seq<Action<V>>, a: Action<V>)
    requires Enabled(Exec(run), a)
    ensures var c, d := Exec(run), Step(Exec(run), a);
      TxEnd(c).None? ==>
        && (TxEnd(d) == Some(Abandoned) <==> a.SendUnpolledDrop? || a.SendCancel? || a.SenderDrop?)
        && (TxEnd(d) in {None, Some(Abandoned)} <==> !a.SendCheck?)
    ensures var c, d := Exec(run), Step(Exec(run), a);
      RxEnd(c).None? ==>
        && (RxEnd(d) == Some(Cancelled) <==> a.RecvCancel? || a.ReceiverDrop?)
        && (RxEnd(d) == Some(Failed) <==> a.RecvTest?)
        && (RxEnd(d) in {None, Some(Cancelled), Some(Failed)} <==> !a.SignalRx?)
  {
    var c := Exec(run);
    assert (c.tx.TxCheck? ==> c.slot.None? || c.rxDrop) && (c.rx.RxMissed? ==> c.txDrop) by { ExecInv(run); }
    if TxEnd(c).None? { TxEndCauses(c, a); }
    if RxEnd(c).None? { RxEndCauses(c, a); }
  }

  /** A `closed()` that is dropped leaves the sender as it was, with any notification it had been given. */
  lemma ClosedCancelled<V>(run: seq<Action<V>>)
    requires Enabled(Exec(run), ClosedCancel)
    ensures var c, d := Exec(run), Step(Exec(run), ClosedCancel);
      d.tx.TxHeld? && d.rx == c.rx && (d.rxNotify.permit <==> c.rxNotify.Signalled()) && d.rxNotify.waiter.Absent?
  {
    ExecInv(run);
  }

  // ---------------------------------------------------------------- wakeups

  predicate SenderParked<V>(c: Config<V>) { c.tx.TxWait? && c.rxNotify.waiter.Parked? }
  predicate ReceiverParked<V>(c: Config<V>) { c.rx.RxWait? && c.txNotify.waiter.Parked? }

  /** The sender sleeps although it has something to see and the receiver will not notify it. */
  predicate SenderMissedWakeup<V>(c: Config<V>) {
    SenderParked(c) && (c.slot.None? || c.rxDrop) && !c.rx.RxTook? && !c.rx.RxDropping?
  }

  predicate ReceiverMissedWakeup<V>(c: Config<V>) {
    ReceiverParked(c) && (c.slot.Some? || c.txDrop) && !c.tx.TxStored? && !c.tx.TxDropping?
  }

  /**
   A wakeup is lost exactly for a sender that parks in `send` after one of its `closed()` calls
   returned by consuming the receiver's notification. The receiver never misses one.
   */
  lemma LostWakeupIff<V>(run: seq<Action<V>>)
    ensures var c := Exec(run);
      && (SenderMissedWakeup(c) <==> SenderParked(c) && c.closedByWake)
      && !ReceiverMissedWakeup(c)
  {
    ExecInv(run);
  }

  /** Neither wait loop goes round twice, and `closed()` never wakes for nothing. */
  lemma EveryWakeIsFinal<V>(run: seq<Action<V>>)
    ensures var c := Exec(run);
      && (c.tx.TxCheck? ==> Step(c, SendCheck).tx.TxReturning?)
      && (c.rx.RxMissed? ==> Step(c, RecvTest).rx == RxReturning(Failed))
      && (c.tx.TxClosing? && c.tx.woken ==> Step(c, ClosedTest).tx.TxHeld?)
  {
    ExecInv(run);
  }

  /** The step that each side's own code performs next. */
  function ReceiverNext<V>(c: Config<V>): Action<V> {
    match c.rx
    case RxHeld => RecvPoll
    case RxWait => RecvPoll
    case RxTake => RecvTake
    case RxTook(_) => SignalRx
    case RxMissed => RecvTest
    case RxReturning(_) => SetRxDrop
    case RxDropping(_) => SignalRxDrop
    case RxDone(_) => SignalRxDrop
  }

  function SenderNext<V>(c: Config<V>): Action<V>
    requires c.tx.TxCreated? || InSend(c) || TxEnd(c).Some?
  {
    match c.tx
    case TxCreated(_) => Store
    case TxStored => SignalTx
    case TxWait => SendPoll
    case TxCheck => SendCheck
    case TxReturning(_) => SetTxDrop
    case _ => SignalTxDrop
  }

  function ReceiverAlone<V>(c: Config<V>, n: nat): Config<V>
    decreases n
  {
    if n == 0 then c else ReceiverAlone(Step(c, ReceiverNext(c)), n - 1)
  }

  function SenderAlone<V>(c: Config<V>, n: nat): Config<V>
    requires c.tx.TxCreated? || InSend(c) || TxEnd(c).Some?
    decreases n
  {
    if n == 0 then c else SenderAlone(Step(c, SenderNext(c)), n - 1)
  }

  /** How far each side is from its end. */
  function RxRank<V>(rx: Rx<V>): nat {
    match rx
    case RxHeld => 5
    case RxWait => 5
    case RxTake => 4
    case RxTook(_) => 3
    case RxMissed => 3
    case RxReturning(_) => 2
    case RxDropping(_) => 1
    case RxDone(_) => 0
  }

  function TxRank<V>(tx: Tx<V>): nat {
    match tx
    case TxStored => 5
    case TxWait => 4
    case TxCheck => 3
    case TxReturning(_) => 2
    case TxDropping(_) => 1
    case TxDone(_) => 0
    case _ => 6
  }

  lemma ReceiverAloneStep<V>(c: Config<V>)
    requires Inv(c) && c.tx.TxDone? && !c.rx.RxDone?
    ensures var d := Step(c, ReceiverNext(c));
      && Inv(d) && d.tx == c.tx && d.stored == c.stored && RxRank(d.rx) < RxRank(c.rx)
      && (RxEnd(c).Some? ==> RxEnd(d) == RxEnd(c))
      && (RxEnd(c).None? && RxEnd(d).Some? ==>
            RxEnd(d) == Some(if c.stored.Some? then Received(c.stored.value) else Failed))
  {
    StepInv(c, ReceiverNext(c));
  }

  lemma {:induction false} ReceiverAloneCompletes<V>(c: Config<V>, n: nat)
    requires Inv(c) && c.tx.TxDone? && RxRank(c.rx) <= n
    ensures ReceiverAlone(c, n).rx ==
      RxDone(if RxEnd(c).Some? then RxEnd(c).value
             else if c.stored.Some? then Received(c.stored.value) else Failed)
    decreases n
  {
    if n > 0 {
      if c.rx.RxDone? {
        assert Step(c, ReceiverNext(c)) == c;
      } else {
        ReceiverAloneStep(c);
      }
      ReceiverAloneCompletes(Step(c, ReceiverNext(c)), n - 1);
    }
  }

  /**
   Once the sender is gone, `recv` completes in five steps of its own: with the value if one was
   ever stored (whether or not `send` was cancelled) and with an error otherwise.
   */
  lemma RecvCompletes<V>(run: seq<Action<V>>)
    requires Exec(run).tx.TxDone? && RxEnd(Exec(run)).None?
    ensures var c := Exec(run);
      ReceiverAlone(c, 5).rx ==
        RxDone(if c.stored.Some? then Received(c.stored.value) else Failed)
  {
    ExecInv(run);
    ReceiverAloneCompletes(Exec(run), 5);
  }

  /** What `send` has to report once the receiver is gone. */
  function SendVerdict<V>(c: Config<V>): SendEnd<V>
    requires c.offered.Some?
  {
    if TxEnd(c).Some? then TxEnd(c).value
    else if Taken(c).Some? then Sent else Refused(c.offered.value)
  }

  lemma SenderAloneStep<V>(c: Config<V>)
    requires Inv(c) && c.rx.RxDone? && !c.closedByWake && !c.tx.TxDone?
    requires c.offered.Some?
    ensures c.tx.TxCreated? || InSend(c) || TxEnd(c).Some?
    ensures var d := Step(c, SenderNext(c));
      && Inv(d) && d.rx == c.rx && !d.closedByWake && d.offered == c.offered
      && TxRank(d.tx) < TxRank(c.tx) && SendVerdict(d) == SendVerdict(c)
  {
    StepInv(c, SenderNext(c));
  }

  lemma {:induction false} SenderAloneCompletes<V>(c: Config<V>, n: nat)
    requires Inv(c) && c.rx.RxDone? && !c.closedByWake && TxRank(c.tx) <= n
    requires c.offered.Some?
    ensures c.tx.TxCreated? || InSend(c) || TxEnd(c).Some?
    ensures SenderAlone(c, n).tx == TxDone(SendVerdict(c))
    decreases n
  {
    if c.tx.TxDone? {
      if n > 0 {
        assert Step(c, SenderNext(c)) == c;
        SenderAloneCompletes(c, n - 1);
      }
    } else {
      SenderAloneStep(c);
      SenderAloneCompletes(Step(c, SenderNext(c)), n - 1);
    }
  }

  /**
   Once the receiver is gone, a `send` that is not cancelled completes in six steps of its own:
   `Ok` if the receiver took the value, otherwise `Err` with that very value, unless a `closed()`
   call has consumed the receiver's notification.
   */
  lemma SendCompletes<V>(run: seq<Action<V>>)
    requires Exec(run).rx.RxDone? && !Exec(run).closedByWake
    requires Exec(run).tx.TxCreated? || InSend(Exec(run))
    ensures Exec(run).offered.Some?
    ensures var c := Exec(run);
      SenderAlone(c, 6).tx == TxDone(if Taken(c).Some? then Sent else Refused(c.offered.value))
  {
    ExecInv(run);
    SenderAloneCompletes(Exec(run), 6);
  }

  // ---------------------------------------------------------------- closed()

  predicate ReceiverGone<V>(c: Config<V>) { c.rx.RxDropping? || c.rx.RxDone? }

  lemma ClosedStepReturns<V>(c: Config<V>, a: Action<V>)
    requires FlagInv(c) && Enabled(c, a) && (a.Closed? || a.ClosedTest? || a.ClosedPoll?)
    ensures Step(c, a).tx.TxHeld? <==> a.ClosedTest? && ReceiverGone(c)
    ensures Step(c, a).rx == c.rx
  {
  }

  /** `closed()` returns, in whatever step, exactly when its test finds that the receiver is gone. */
  lemma ClosedReturnsIff<V>(run: seq<Action<V>>, a: Action<V>)
    requires Enabled(Exec(run), a) && (a.Closed? || a.ClosedTest? || a.ClosedPoll?)
    ensures Step(Exec(run), a).tx.TxHeld? <==> a.ClosedTest? && ReceiverGone(Exec(run))
    ensures a.Closed? ==> Step(Exec(run), a).tx == TxClosing(false)
  {
    ExecInv(run);
    ClosedStepReturns(Exec(run), a);
  }

  lemma WaitingStep<V>(c: Config<V>, a: Action<V>)
    requires FlagInv(c) && (c.closedByWake ==> c.rx.RxDone?) && (c.tx.TxClosedWait? ==> !c.closedByWake)
    ensures Step(c, a).tx.TxClosedWait? ==> !Step(c, a).closedByWake
  {
  }

  /** A `closed()` that waits has not taken the notification of the receiver before. */
  lemma {:induction false} WaitingIsFirst<V>(run: seq<Action<V>>)
    ensures Exec(run).tx.TxClosedWait? ==> !Exec(run).closedByWake
  {
    if run != [] {
      var before := run[..|run| - 1];
      WaitingIsFirst(before);
      assert FlagInv(Exec(before)) && (Exec(before).closedByWake ==> Exec(before).rx.RxDone?) by { ExecInv(before); }
      WaitingStep(Exec(before), run[|run| - 1]);
    }
  }

  /** Once the receiver is gone `closed()` returns after its next test, which a waiting one reaches in one poll. */
  lemma ClosedCompletes<V>(run: seq<Action<V>>)
    requires Exec(run).rx.RxDone?
    ensures var c := Exec(run);
      && (c.tx.TxHeld? ==> Step(Step(c, Closed), ClosedTest).tx.TxHeld?)
      && (c.tx.TxClosing? ==> Step(c, ClosedTest).tx.TxHeld?)
      && (c.tx.TxClosedWait? ==>
            Step(c, ClosedPoll).tx.TxClosing? && Step(Step(c, ClosedPoll), ClosedTest).tx.TxHeld?)
  {
    ExecInv(run);
    WaitingIsFirst(run);
  }

  // ---------------------------------------------------------------- both sides at work

  /** What each side has left to do, one less once its waiter is registered. */
  function TxWork<V>(c: Config<V>): nat {
    match c.tx
    case TxStored => 6
    case TxWait => if c.rxNotify.waiter.Absent? then 5 else 4
    case TxCheck => 3
    case TxReturning(_) => 2
    case TxDropping(_) => 1
    case TxDone(_) => 0
    case _ => 7
  }

  function RxWork<V>(c: Config<V>): nat {
    match c.rx
    case RxHeld => 6
    case RxWait => if c.txNotify.waiter.Absent? then 6 else 5
    case RxTake => 4
    case RxTook(_) => 3
    case RxMissed => 3
    case RxReturning(_) => 2
    case RxDropping(_) => 1
    case RxDone(_) => 0
  }

  function Work<V>(c: Config<V>): nat { TxWork(c) + RxWork(c) }

  /** A value was given to `send`, and no `closed()` has consumed the receiver's notification. */
  ghost predicate Meeting<V>(c: Config<V>) {
    Inv(c) && c.offered.Some? && !c.closedByWake
  }

  lemma MeetingSends<V>(c: Config<V>)
    requires Meeting(c)
    ensures c.tx.TxCreated? || InSend(c) || TxEnd(c).Some?
  {
  }

  /** Neither side was cancelled. */
  predicate Uncancelled<V(==)>(c: Config<V>) {
    TxEnd(c) != Some(Abandoned) && RxEnd(c) != Some(Cancelled)
  }

  lemma SenderLowers<V>(c: Config<V>)
    requires FlagInv(c) && OfferInv(c) && RxSignalInv(c) && c.offered.Some?
    requires c.tx.TxCreated? || InSend(c) || TxEnd(c).Some?
    ensures var d := Step(c, SenderNext(c)); d == c || Work(d) < Work(c)
  {
  }

  lemma ReceiverLowers<V>(c: Config<V>)
    requires FlagInv(c) && OfferInv(c) && TxSignalInv(c)
    ensures var d := Step(c, ReceiverNext(c)); d == c || Work(d) < Work(c)
  {
  }

  lemma SenderWorks<V>(c: Config<V>)
    requires Meeting(c)
    requires c.tx.TxCreated? || InSend(c) || TxEnd(c).Some?
    ensures var d := Step(c, SenderNext(c));
      Meeting(d) && d.offered == c.offered && (Uncancelled(c) ==> Uncancelled(d)) && (d == c || Work(d) < Work(c))
  {
    SenderLowers(c);
    StepInv(c, SenderNext(c));
  }

  lemma ReceiverWorks<V>(c: Config<V>)
    requires Meeting(c)
    ensures var d := Step(c, ReceiverNext(c));
      Meeting(d) && d.offered == c.offered && (Uncancelled(c) ==> Uncancelled(d)) && (d == c || Work(d) < Work(c))
  {
    ReceiverLowers(c);
    StepInv(c, ReceiverNext(c));
  }

  /** The next step of one side, whichever the scheduler picks. */
  function Turn<V>(c: Config<V>, sender: bool): Config<V>
    requires c.tx.TxCreated? || InSend(c) || TxEnd(c).Some?
  {
    Step(c, if sender then SenderNext(c) else ReceiverNext(c))
  }

  lemma TurnWorks<V>(c: Config<V>, sender: bool)
    requires Meeting(c)
    requires c.tx.TxCreated? || InSend(c) || TxEnd(c).Some?
    ensures var d := Turn(c, sender);
      && Meeting(d) && d.offered == c.offered && (Uncancelled(c) ==> Uncancelled(d))
      && (d == c || Work(d) < Work(c))
  {
    if sender { SenderWorks(c); } else { ReceiverWorks(c); }
  }

  ghost function Meet<V>(c: Config<V>, schedule: seq<bool>): (d: Config<V>)
    requires Meeting(c)
    ensures Meeting(d) && d.offered == c.offered
  {
    if schedule == [] then c
    else
      var before := Meet(c, schedule[..|schedule| - 1]);
      MeetingSends(before);
      TurnWorks(before, schedule[|schedule| - 1]);
      Turn(before, schedule[|schedule| - 1])
  }

  /** The number of turns that were not spent waiting. */
  ghost function Effective<V>(c: Config<V>, schedule: seq<bool>): nat
    requires Meeting(c)
  {
    if schedule == [] then 0
    else
      var n := |schedule| - 1;
      Effective(c, schedule[..n]) + if Meet(c, schedule) != Meet(c, schedule[..n]) then 1 else 0
  }

  lemma {:induction false} MeetWorks<V>(c: Config<V>, schedule: seq<bool>)
    requires Meeting(c)
    ensures Effective(c, schedule) + Work(Meet(c, schedule)) <= Work(c)
    ensures Uncancelled(c) ==> Uncancelled(Meet(c, schedule))
  {
    if schedule != [] {
      var n := |schedule| - 1;
      MeetWorks(c, schedule[..n]);
      MeetingSends(Meet(c, schedule[..n]));
      TurnWorks(Meet(c, schedule[..n]), schedule[n]);
    }
  }

  /** Neither side can go on. */
  ghost predicate Stuck<V>(c: Config<V>)
    requires Meeting(c)
  {
    MeetingSends(c);
    Turn(c, true) == c && Turn(c, false) == c
  }

  lemma StuckMeansDone<V>(c: Config<V>)
    requires Meeting(c) && Stuck(c)
    ensures c.tx.TxDone? && c.rx.RxDone?
  {
    MeetingSends(c);
  }

  lemma MetEnds<V>(c: Config<V>)
    requires Inv(c) && c.tx.TxDone? && c.rx.RxDone? && c.offered.Some? && Uncancelled(c)
    ensures c.tx == TxDone(Sent) && c.rx == RxDone(Received(c.offered.value))
  {
  }

  /**
   A `send` and a `recv` that are both at work meet: from any reachable point and under any schedule
   of their turns, all but thirteen turns are spent waiting, and the only way that neither can go on
   is that both have returned, the one with Ok and the other with the value unless one was cancelled.
   */
  lemma SendMeetsRecv<V>(run: seq<Action<V>>, schedule: seq<bool>)
    requires Exec(run).offered.Some? && !Exec(run).closedByWake
    ensures Meeting(Exec(run)) && Effective(Exec(run), schedule) <= 13
    ensures var d := Meet(Exec(run), schedule); Stuck(d) ==> d.tx.TxDone? && d.rx.RxDone?
    ensures var c, d := Exec(run), Meet(Exec(run), schedule);
      Stuck(d) && Uncancelled(c) ==> d.tx == TxDone(Sent) && d.rx == RxDone(Received(c.offered.value))
  {
    ExecInv(run);
    var c, d := Exec(run), Meet(Exec(run), schedule);
    MeetWorks(c, schedule);
    if Stuck(d) {
      StuckMeansDone(d);
      if Uncancelled(c) { MetEnds(d); }
    }
  }

  // ---------------------------------------------------------------- the two exceptions are reachable

  ghost predicate Reachable<V(!new)>(c: Config<V>) {
    exists run: seq<Action<V>> :: Exec(run) == c
  }

  lemma ReachStep<V(!new)>(c: Config<V>, a: Action<V>) returns (d: Config<V>)
    requires Reachable(c) && Enabled(c, a)
    ensures d == (if ReceiverAction(a) then RxStep(c, a) else TxStep(c, a)) && Reachable(d)
  {
    d := Step(c, a);
    var run: seq<Action<V>> :| Exec(run) == c;
    assert (run + [a])[..|run|] == run;
    assert Exec(run + [a]) == d;
  }

  lemma ReachInit<V(!new)>()
    ensures Reachable(Init<V>())
  {
    assert Exec<V>([]) == Init();
  }

  /** A `send` future dropped before its first poll loses its value although the receiver waits for it. */
  lemma UnpolledSendLosesValue<V(!new)>(v: V) returns (c: Config<V>)
    ensures Reachable(c) && At(c, v, Lost) && RxEnd(c) == Some(Failed)
  {
    ReachInit<V>();
    c := ReachStep(Init(), Send(v));
    c := ReachStep(c, SendUnpolledDrop);
    c := ReachStep(c, SetTxDrop);
    c := ReachStep(c, SignalTxDrop);
    c := ReachStep(c, RecvPoll);
    c := ReachStep(c, RecvTake);
    c := ReachStep(c, RecvTest);
  }

  /** A `closed()` call that waits for the receiver to be dropped, and the channel it leaves behind. */
  lemma ClosedByWaking<V(!new)>() returns (c: Config<V>)
    ensures Reachable(c)
    ensures c == Init().(rxDrop := true, rx := RxDone(Cancelled), closedByWake := true)
  {
    ReachInit<V>();
    c := ReachStep(Init(), Closed);
    c := ReachStep(c, ClosedTest);
    c := ReachStep(c, ClosedPoll);
    c := ReachStep(c, ReceiverDrop);
    c := ReachStep(c, SetRxDrop);
    c := ReachStep(c, SignalRxDrop);
    c := ReachStep(c, ClosedPoll);
    c := ReachStep(c, ClosedTest);
  }

  /** `send` after a `closed()` that waited: parked although the receiver is gone. */
  lemma SendAfterClosedHangs<V(!new)>(v: V) returns (c: Config<V>)
    ensures Reachable(c) && SenderMissedWakeup(c) && c.rx.RxDone?
  {
    c := ClosedByWaking();
    c := ReachStep(c, Send(v));
    c := ReachStep(c, Store);
    c := ReachStep(c, SignalTx);
    c := ReachStep(c, SendPoll);
  }

  // ---------------------------------------------------------------- the shared object

  /**
   The channel object. `Perform` runs the code of one atomic step on the fields, and is proved
   against `Step`.
   */
  class Channel<V(==)> {
    var slot: Option<V>
    var txDrop: bool
    var rxDrop: bool
    var txNotify: Notify
    var rxNotify: Notify
    var tx: Tx<V>
    var rx: Rx<V>
    ghost var offered: Option<V>
    ghost var stored: Option<V>
    ghost var closedByWake: bool

    ghost function View(): Config<V>
      reads this
    {
      Config(slot, txDrop, rxDrop, txNotify, rxNotify, tx, rx, offered, stored, closedByWake)
    }

    constructor ()
      ensures View() == Init() && Inv(View())
    {
      slot, txDrop, rxDrop := None, false, false;
      txNotify, rxNotify := FRESH, FRESH;
      tx, rx := TxHeld, RxHeld;
      offered, stored, closedByWake := None, None, false;
    }

    method Perform(a: Action<V>)
      requires Inv(View()) && Enabled(View(), a)
      modifies this
      ensures View() == Step(old(View()), a) && Inv(View())
    {
      StepInv(View(), a);
      if ReceiverAction(a) { PerformRx(a); } else { PerformTx(a); }
    }

    method PerformTx(a: Action<V>)
      requires SenderAction(a) && Enabled(View(), a)
      modifies this
      ensures View() == TxStep(old(View()), a)
    {
      match a {
        case Closed => tx := TxClosing(false);
        case ClosedTest =>
          if rxDrop {
            closedByWake := closedByWake || tx.woken;
            tx := TxHeld;
          } else {
            tx := TxClosedWait;
          }
        case ClosedPoll =>
          if rxNotify.Ready() { tx := TxClosing(true); }
          rxNotify := rxNotify.Poll();
        case ClosedCancel =>
          rxNotify := rxNotify.DropWaiter();
          tx := TxHeld;
        case Send(v) =>
          offered := Some(v);
          tx := TxCreated(v);
        case SendUnpolledDrop => tx := TxReturning(Abandoned);
        case Store =>
          slot := Some(tx.value);
          stored := Some(tx.value);
          tx := TxStored;
        case SignalTx =>
          txNotify := txNotify.NotifyOne();
          tx := TxWait;
        case SendPoll =>
          if rxNotify.Ready() { tx := TxCheck; }
          rxNotify := rxNotify.Poll();
        case SendCheck =>
          if slot.None? {
            tx := TxReturning(Sent);
          } else if rxDrop {
            tx := TxReturning(Refused(slot.value));
            slot := None;
          } else {
            tx := TxWait;
          }
        case SendCancel =>
          rxNotify := rxNotify.DropWaiter();
          tx := TxReturning(Abandoned);
        case SenderDrop => tx := TxReturning(Abandoned);
        case SetTxDrop =>
          txDrop := true;
          tx := TxDropping(tx.end);
        case SignalTxDrop =>
          txNotify := txNotify.NotifyOne();
          tx := TxDone(tx.end);
      }
    }

    method PerformRx(a: Action<V>)
      requires ReceiverAction(a) && Enabled(View(), a)
      modifies this
      ensures View() == RxStep(old(View()), a)
    {
      match a {
        case RecvPoll =>
          rx := if txNotify.Ready() then RxTake else RxWait;
          txNotify := txNotify.Poll();
        case RecvTake =>
          if slot.Some? {
            rx := RxTook(slot.value);
            slot := None;
          } else {
            rx := RxMissed;
          }
        case SignalRx =>
          rxNotify := rxNotify.NotifyOne();
          rx := RxReturning(Received(rx.value));
        case RecvTest => rx := if txDrop then RxReturning(Failed) else RxWait;
        case RecvCancel =>
          txNotify := txNotify.DropWaiter();
          rx := RxReturning(Cancelled);
        case ReceiverDrop => rx := RxReturning(Cancelled);
        case SetRxDrop =>
          rxDrop := true;
          rx := RxDropping(rx.end);
        case SignalRxDrop =>
          rxNotify := rxNotify.NotifyOne();
          rx := RxDone(rx.end);
      }
    }
  }
}
