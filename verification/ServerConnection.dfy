/**
 The server side of a client connection (service/src/connection.rs).

 One iteration of `run` handles one input: a message read, a handler that completed, or something a
 subscription stream yields. Whether writing a response succeeds is part of the input. The log lists
 the responses written, with what each of them stands for.
 */
module ServerConnection {
  import opened Options

  type Id = nat

  /** `Finished`: the stream has yielded its closing item but is still in the stream map. */
  datatype Subscription = Open | Finished

  datatype Payload =
    | Reply                                  // a handler's result, success or failure
    | Subscribed                             // Unit, confirming a subscription
    | Event                                  // an item of a subscription
    | Closed                                 // None, the end of a subscription
    | CancelAnswer(target: Id, removed: bool)
    | Rejected                               // the message could not be decoded or validated

  datatype Response = Response(id: Id, payload: Payload)

  datatype State = State(handlers: set<Id>, subscriptions: map<Id, Subscription>, log: seq<Response>, terminated: bool)

  const INIT := State({}, map[], [], false)

  datatype Input =
    | Request(id: Id)
    | Cancel(id: Id, target: Id, written: bool)
    | Malformed(id: Id, written: bool)
    | ReadFailed                                     // receive error, undecodable id, or end of input
    | HandlerDone(id: Id, subscribe: bool, written: bool)
    | StreamItem(id: Id, written: bool)
    | StreamClosed(id: Id, written: bool)
    | StreamSwept(id: Id)                            // the stream map drops a finished stream

  /** Handlers complete and streams yield only while they are there. */
  predicate Possible(s: State, input: Input) {
    match input
    case HandlerDone(id, _, _) => id in s.handlers
    case StreamItem(id, _) => id in s.subscriptions && s.subscriptions[id].Open?
    case StreamClosed(id, _) => id in s.subscriptions && s.subscriptions[id].Open?
    case StreamSwept(id) => id in s.subscriptions && s.subscriptions[id].Finished?
    case _ => true
  }

  /** `send_response`: a failed write terminates the connection. */
  function Send(s: State, written: bool, response: Response): State {
    if written then s.(log := s.log + [response]) else s.(terminated := true)
  }

  function Step(s: State, input: Input): State {
    if s.terminated || !Possible(s, input) then s else
    match input
    case Request(id) => s.(handlers := s.handlers + {id})
    case Cancel(id, target, written) =>
      Send(s.(handlers := s.handlers - {target}, subscriptions := s.subscriptions - {target}), written,
           Response(id, CancelAnswer(target, target in s.handlers || target in s.subscriptions)))
    case Malformed(id, written) => Send(s, written, Response(id, Rejected))
    case ReadFailed => s.(terminated := true)
    case HandlerDone(id, subscribe, written) =>
      if subscribe then
        Send(s.(handlers := s.handlers - {id}, subscriptions := s.subscriptions[id := Open]),
             written, Response(id, Subscribed))
      else Send(s.(handlers := s.handlers - {id}), written, Response(id, Reply))
    case StreamItem(id, written) => Send(s, written, Response(id, Event))
    case StreamClosed(id, written) =>
      Send(s.(subscriptions := s.subscriptions[id := Finished]), written, Response(id, Closed))
    case StreamSwept(id) => s.(subscriptions := s.subscriptions - {id})
  }

  function Exec(run: seq<Input>): State {
    if run == [] then INIT else Step(Exec(run[..|run| - 1]), run[|run| - 1])
  }

  // ---------------------------------------------------------------- the protocol of one id

  /** What a client has seen of one id. `Cancelled` remembers whether a response had come before. */
  datatype Phase = Waiting | Replied | Live | Ended | Cancelled(answered: bool) | Violated

  /** A response is known by its id alone, so each one that carries the id counts. */
  function Receive(phase: Phase, payload: Payload): Phase {
    match payload
    case Reply => if phase.Waiting? then Replied else Violated
    case Subscribed => if phase.Waiting? then Live else Violated
    case Event => if phase.Live? then Live else Violated
    case Closed => if phase.Live? then Ended else Violated
    case CancelAnswer(_, _) => if phase.Waiting? then Replied else Violated
    case Rejected => if phase.Waiting? then Replied else Violated
  }

  /** A cancel of the id was answered with true. */
  function Withdraw(phase: Phase): Phase {
    match phase
    case Waiting => Cancelled(false)
    case Live => Cancelled(true)
    case Ended => Cancelled(true)
    case _ => Violated
  }

  /** The protocol, one response at a time. */
  function Advance(phase: Phase, id: Id, response: Response): Phase {
    var received := if response.id == id then Receive(phase, response.payload) else phase;
    if response.payload == CancelAnswer(id, true) then Withdraw(received) else received
  }

  function PhaseOf(log: seq<Response>, id: Id): Phase {
    if log == [] then Waiting else Advance(PhaseOf(log[..|log| - 1], id), id, log[|log| - 1])
  }

  /** The first responses to messages with this id: all but the items of a subscription. */
  function InitialReplies(log: seq<Response>, id: Id): nat {
    if log == [] then 0
    else
      var last := log[|log| - 1];
      InitialReplies(log[..|log| - 1], id) +
        if last.id == id && !last.payload.Event? && !last.payload.Closed? then 1 else 0
  }

  // ---------------------------------------------------------------- messages and what became of them

  predicate Carries(input: Input, id: Id) {
    (input.Request? || input.Cancel? || input.Malformed?) && input.id == id
  }

  /** The number of messages read with this id, of whatever kind. */
  function Messages(run: seq<Input>, id: Id): nat {
    if run == [] then 0 else Messages(run[..|run| - 1], id) + B(Carries(run[|run| - 1], id))
  }

  function B(b: bool): nat { if b then 1 else 0 }

  predicate Accepted(run: seq<Input>, id: Id) {
    Request(id) in run
  }

  /** All that concerns one id: messages read, being handled or subscribed, what was seen of it. */
  datatype Record = Record(messages: nat, handled: bool, sub: Option<Subscription>, phase: Phase)

  function RecordOf(s: State, messages: nat, id: Id): Record {
    var sub := if id in s.subscriptions then Some(s.subscriptions[id]) else None;
    Record(messages, id in s.handlers, sub, PhaseOf(s.log, id))
  }

  /**
   Where an id stands inside the connection agrees with what its client has seen: a handler runs only
   before the first response, a stream is open exactly between confirmation and end, and every
   message was answered or withdrawn or is being handled.
   */
  predicate Coherent(r: Record) {
    && !r.phase.Violated?
    && (r.handled ==> r.phase.Waiting? && r.sub.None?)
    && (r.phase.Live? ==> r.sub.Some?)
    && (r.sub.Some? ==> if r.sub.value.Open? then r.phase.Live? else r.phase.Ended?)
    && r.messages == B(r.handled) + B(!r.phase.Waiting?)
  }

  lemma LogPhase(log: seq<Response>, response: Response, id: Id)
    ensures PhaseOf(log + [response], id) == Advance(PhaseOf(log, id), id, response)
  {
    assert (log + [response])[..|log|] == log;
  }

  lemma SendPhase(s: State, written: bool, response: Response, id: Id)
    ensures written ==> PhaseOf(Send(s, written, response).log, id) == Advance(PhaseOf(s.log, id), id, response)
  {
    LogPhase(s.log, response, id);
  }

  function CancelReply(s: State, message: Id, target: Id): Response {
    Response(message, CancelAnswer(target, target in s.handlers || target in s.subscriptions))
  }

  lemma CancelPlaces(s: State, message: Id, target: Id, id: Id)
    requires !s.terminated
    ensures var t := Step(s, Cancel(message, target, true));
      && t.log == s.log + [CancelReply(s, message, target)]
      && (id in t.handlers <==> id in s.handlers && target != id)
      && (id in t.subscriptions <==> id in s.subscriptions && target != id)
      && (id in t.subscriptions ==> t.subscriptions[id] == s.subscriptions[id])
  {
  }

  lemma CancelRecord(s: State, messages: nat, message: Id, target: Id, id: Id)
    requires !s.terminated
    ensures var r := RecordOf(s, messages, id);
      RecordOf(Step(s, Cancel(message, target, true)), messages, id) ==
        Record(messages, r.handled && target != id, if target == id then None else r.sub,
               Advance(r.phase, id, CancelReply(s, message, target)))
  {
    CancelPlaces(s, message, target, id);
    LogPhase(s.log, CancelReply(s, message, target), id);
  }

  lemma CancelCoherent(s: State, messages: nat, message: Id, target: Id, id: Id)
    requires !s.terminated && Coherent(RecordOf(s, messages, id)) && (message == id ==> messages == 0)
    ensures Coherent(RecordOf(Step(s, Cancel(message, target, true)), messages + B(message == id), id))
  {
    var r := RecordOf(s, messages, id);
    CancelRecord(s, messages + B(message == id), message, target, id);
    if target == id { assert target in s.handlers || target in s.subscriptions <==> r.handled || r.sub.Some?; }
  }

  lemma DoneRecord(s: State, messages: nat, done: Id, subscribe: bool, id: Id)
    requires !s.terminated && done in s.handlers
    ensures var r := RecordOf(s, messages, id);
      RecordOf(Step(s, HandlerDone(done, subscribe, true)), messages, id) ==
        Record(messages, r.handled && done != id, if done == id && subscribe then Some(Open) else r.sub,
               Advance(r.phase, id, Response(done, if subscribe then Subscribed else Reply)))
  {
    SendPhase(s, true, Response(done, if subscribe then Subscribed else Reply), id);
  }

  lemma DoneCoherent(s: State, messages: nat, done: Id, subscribe: bool, id: Id)
    requires !s.terminated && Coherent(RecordOf(s, messages, id)) && done in s.handlers
    ensures Coherent(RecordOf(Step(s, HandlerDone(done, subscribe, true)), messages, id))
  {
    var r := RecordOf(s, messages, id);
    DoneRecord(s, messages, done, subscribe, id);
    if done != id { assert RecordOf(Step(s, HandlerDone(done, subscribe, true)), messages, id) == r; }
  }

  function StreamInput(stream: Id, closing: bool): Input {
    if closing then StreamClosed(stream, true) else StreamItem(stream, true)
  }

  lemma StreamRecord(s: State, messages: nat, stream: Id, closing: bool, id: Id)
    requires !s.terminated && stream in s.subscriptions && s.subscriptions[stream].Open?
    ensures var r := RecordOf(s, messages, id);
      RecordOf(Step(s, StreamInput(stream, closing)), messages, id) ==
        Record(messages, r.handled, if stream == id && closing then Some(Finished) else r.sub,
               Advance(r.phase, id, Response(stream, if closing then Closed else Event)))
  {
    SendPhase(s, true, Response(stream, if closing then Closed else Event), id);
  }

  lemma StreamCoherent(s: State, messages: nat, stream: Id, closing: bool, id: Id)
    requires !s.terminated && Coherent(RecordOf(s, messages, id))
    requires stream in s.subscriptions && s.subscriptions[stream].Open?
    ensures Coherent(RecordOf(Step(s, StreamInput(stream, closing)), messages, id))
  {
    StreamRecord(s, messages, stream, closing, id);
  }

  lemma SweptCoherent(s: State, messages: nat, stream: Id, id: Id)
    requires !s.terminated && Coherent(RecordOf(s, messages, id)) && Possible(s, StreamSwept(stream))
    ensures Coherent(RecordOf(Step(s, StreamSwept(stream)), messages, id))
  {
  }

  lemma RequestCoherent(s: State, messages: nat, request: Id, id: Id)
    requires !s.terminated && Coherent(RecordOf(s, messages, id)) && (request == id ==> messages == 0)
    ensures Coherent(RecordOf(Step(s, Request(request)), messages + B(request == id), id))
  {
  }

  lemma MalformedRecord(s: State, messages: nat, message: Id, id: Id)
    requires !s.terminated
    ensures var r := RecordOf(s, messages, id);
      RecordOf(Step(s, Malformed(message, true)), messages, id) ==
        r.(phase := Advance(r.phase, id, Response(message, Rejected)))
  {
    LogPhase(s.log, Response(message, Rejected), id);
  }

  lemma MalformedCoherent(s: State, messages: nat, message: Id, id: Id)
    requires !s.terminated && Coherent(RecordOf(s, messages, id)) && (message == id ==> messages == 0)
    ensures Coherent(RecordOf(Step(s, Malformed(message, true)), messages + B(message == id), id))
  {
    MalformedRecord(s, messages + B(message == id), message, id);
  }

  predicate Silent(input: Input) {
    input.Request? || input.StreamSwept? || input.ReadFailed?
  }

  lemma SurvivedSteps(s: State, input: Input)
    requires !s.terminated && Possible(s, input)
    ensures Step(s, input).terminated <==> input.ReadFailed? || (!Silent(input) && !input.written)
  {
  }

  lemma StepCoherent(s: State, messages: nat, input: Input, id: Id)
    requires !s.terminated && Possible(s, input) && Coherent(RecordOf(s, messages, id))
    requires !input.ReadFailed? && (!Silent(input) ==> input.written)
    requires Carries(input, id) ==> messages == 0
    ensures Coherent(RecordOf(Step(s, input), messages + B(Carries(input, id)), id))
  {
    match input
    case Request(request) => RequestCoherent(s, messages, request, id);
    case Cancel(message, target, _) => CancelCoherent(s, messages, message, target, id);
    case Malformed(message, _) => MalformedCoherent(s, messages, message, id);
    case HandlerDone(done, subscribe, _) => DoneCoherent(s, messages, done, subscribe, id);
    case StreamItem(stream, _) => StreamCoherent(s, messages, stream, false, id);
    case StreamClosed(stream, _) => StreamCoherent(s, messages, stream, true, id);
    case StreamSwept(stream) => SweptCoherent(s, messages, stream, id);
  }

  /** One more input keeps the record of `id` coherent as long as the connection survives it. */
  lemma NextCoherent(s: State, messages: nat, input: Input, id: Id)
    requires !s.terminated && !Step(s, input).terminated && Coherent(RecordOf(s, messages, id))
    requires Carries(input, id) ==> messages == 0
    ensures Coherent(RecordOf(Step(s, input), messages + B(Carries(input, id)), id))
  {
    if Possible(s, input) {
      SurvivedSteps(s, input);
      StepCoherent(s, messages, input, id);
    }
  }

  lemma {:induction false} ExecCoherent(run: seq<Input>, id: Id)
    requires Messages(run, id) <= 1 && !Exec(run).terminated
    ensures Coherent(RecordOf(Exec(run), Messages(run, id), id))
  {
    if run != [] {
      var n := |run| - 1;
      ExecCoherent(run[..n], id);
      NextCoherent(Exec(run[..n]), Messages(run[..n], id), run[n], id);
    }
  }

  lemma {:induction false} PhaseCounts(log: seq<Response>, id: Id)
    requires !PhaseOf(log, id).Violated?
    ensures InitialReplies(log, id) + B(PhaseOf(log, id) == Cancelled(false)) == B(!PhaseOf(log, id).Waiting?)
  {
    if log != [] { PhaseCounts(log[..|log| - 1], id); }
  }

  /** A client that draws its ids from a counter sends at most one message with each of them. */
  lemma {:induction false} DistinctIdsAreFresh(run: seq<Input>, id: Id)
    requires forall i, j :: 0 <= i < j < |run| && Carries(run[i], id) ==> !Carries(run[j], id)
    ensures Messages(run, id) == B(exists i :: 0 <= i < |run| && Carries(run[i], id))
  {
    if run != [] {
      var n := |run| - 1;
      DistinctIdsAreFresh(run[..n], id);
      assert forall i :: 0 <= i < n ==> run[..n][i] == run[i];
    }
  }

  lemma {:induction false} AcceptedCounts(run: seq<Input>, id: Id)
    requires Accepted(run, id)
    ensures Messages(run, id) >= 1
  {
    if run[|run| - 1] != Request(id) {
      assert run == run[..|run| - 1] + [run[|run| - 1]];
      AcceptedCounts(run[..|run| - 1], id);
    }
  }

  /**
   The per-request protocol. While the connection lasts, a request whose id is not reused has not
   been answered and is still being handled, or got its one initial reply, or was cancelled before any;
   events come only between the confirmation of a subscription and its closing item or a successful
   cancel.
   */
  lemma RequestProtocol(run: seq<Input>, id: Id)
    requires Messages(run, id) <= 1 && !Exec(run).terminated && Accepted(run, id)
    ensures var s := Exec(run);
      && !PhaseOf(s.log, id).Violated?
      && (id in s.handlers <==> PhaseOf(s.log, id).Waiting?)
      && (PhaseOf(s.log, id).Live? <==> id in s.subscriptions && s.subscriptions[id].Open?)
      && (PhaseOf(s.log, id).Cancelled? ==> id !in s.handlers && id !in s.subscriptions)
  {
    ExecCoherent(run, id);
    AcceptedCounts(run, id);
  }

  /** A message of any kind gets exactly one first response, unless it is still handled or was cancelled before. */
  lemma OneInitialReply(run: seq<Input>, id: Id)
    requires Messages(run, id) == 1 && !Exec(run).terminated
    ensures var s := Exec(run);
      B(id in s.handlers) + InitialReplies(s.log, id) + B(PhaseOf(s.log, id) == Cancelled(false)) == 1
  {
    ExecCoherent(run, id);
    PhaseCounts(Exec(run).log, id);
  }

  // ---------------------------------------------------------------- the protocol in terms of the log alone

  predicate Over(phase: Phase) { phase.Replied? || phase.Ended? || phase.Cancelled? }

  lemma {:induction false} LogOver(log: seq<Response>, id: Id, i: nat, j: nat)
    requires i <= j < |log| && !PhaseOf(log, id).Violated?
    requires Over(PhaseOf(log[..i], id))
    ensures log[j].id != id && Over(PhaseOf(log[..j + 1], id))
    decreases |log|, j
  {
    var n := |log| - 1;
    if j < n {
      assert log[..n][..i] == log[..i] && log[..n][..j + 1] == log[..j + 1];
      LogOver(log[..n], id, i, j);
    } else {
      assert log[..n + 1] == log;
      if i < n {
        assert log[..n][..i] == log[..i] && log[..n][..n] == log[..n];
        LogOver(log[..n], id, i, n - 1);
      }
    }
  }

  /** Once the client has seen the end of an id, the connection writes no response with it any more. */
  lemma OverIsOver(run: seq<Input>, id: Id, i: nat, j: nat)
    requires Messages(run, id) <= 1 && !Exec(run).terminated && i <= j < |Exec(run).log|
    requires Over(PhaseOf(Exec(run).log[..i], id))
    ensures Exec(run).log[j].id != id
  {
    ExecCoherent(run, id);
    LogOver(Exec(run).log, id, i, j);
  }

  lemma {:induction false} PrefixKept(log: seq<Response>, id: Id, j: nat)
    requires j <= |log| && !PhaseOf(log, id).Violated?
    ensures !PhaseOf(log[..j], id).Violated?
  {
    if j < |log| {
      assert log[..|log| - 1][..j] == log[..j];
      PrefixKept(log[..|log| - 1], id, j);
    } else {
      assert log[..j] == log;
    }
  }

  /** The subscription of `id` was confirmed in the log, and neither closed nor cancelled since. */
  predicate Confirmed(log: seq<Response>, id: Id) {
    && Response(id, Subscribed) in log
    && Response(id, Closed) !in log
    && (forall i :: 0 <= i < |log| ==> log[i].payload != CancelAnswer(id, true))
  }

  lemma {:induction false} LiveIsConfirmed(log: seq<Response>, id: Id)
    ensures PhaseOf(log, id).Waiting? ==> forall r :: r in log ==> r.id != id && r.payload != CancelAnswer(id, true)
    ensures PhaseOf(log, id).Live? ==> Confirmed(log, id)
  {
    if log != [] {
      LiveIsConfirmed(log[..|log| - 1], id);
      assert log == log[..|log| - 1] + [log[|log| - 1]];
    }
  }

  /**
   Events and the closing item of an id come only after its subscription was confirmed, and never
   after its closing item or a cancel answered with true.
   */
  lemma EventsAreBracketed(run: seq<Input>, id: Id, j: nat)
    requires Messages(run, id) <= 1 && !Exec(run).terminated && j < |Exec(run).log|
    requires Exec(run).log[j] == Response(id, Event) || Exec(run).log[j] == Response(id, Closed)
    ensures Confirmed(Exec(run).log[..j], id)
  {
    ExecCoherent(run, id);
    LoggedEvents(Exec(run).log, id, j);
  }

  lemma LoggedEvents(log: seq<Response>, id: Id, j: nat)
    requires !PhaseOf(log, id).Violated? && j < |log|
    requires log[j] == Response(id, Event) || log[j] == Response(id, Closed)
    ensures Confirmed(log[..j], id)
  {
    PrefixKept(log, id, j + 1);
    assert log[..j + 1][..j] == log[..j];
    LiveIsConfirmed(log[..j], id);
  }

  // ---------------------------------------------------------------- ids used again

  datatype Kind = RequestKind | CancelKind | MalformedKind

  /**
   An id that may start over with each message: the kinds of messages asked under it, the kinds
   settled by a first response or a withdrawal, and whether its client sees a stream open. `broken`:
   a first response came inside an open stream, or an item outside of one.
   */
  datatype Ledger = Ledger(asked: seq<Kind>, settled: seq<Kind>, open: bool, broken: bool)

  function KindOf(input: Input): Kind {
    if input.Cancel? then CancelKind else if input.Malformed? then MalformedKind else RequestKind
  }

  function Ask(l: Ledger, input: Input, id: Id): Ledger {
    if Carries(input, id) then l.(asked := l.asked + [KindOf(input)]) else l
  }

  function First(l: Ledger, kind: Kind, opening: bool): Ledger {
    Ledger(l.asked, l.settled + [kind], opening, l.broken || l.open)
  }

  function Item(l: Ledger, closing: bool): Ledger {
    l.(open := l.open && !closing, broken := l.broken || !l.open)
  }

  /** A response written with the id. */
  function Hear(l: Ledger, payload: Payload): Ledger {
    match payload
    case Reply => First(l, RequestKind, false)
    case Subscribed => First(l, RequestKind, true)
    case Event => Item(l, false)
    case Closed => Item(l, true)
    case CancelAnswer(_, _) => First(l, CancelKind, l.open)
    case Rejected => First(l, MalformedKind, l.open)
  }

  /** A response written at all; a true cancel of the id ends its stream, and withdraws what is `handled`. */
  function Note(l: Ledger, r: Response, handled: bool, id: Id): Ledger {
    var heard := if r.id == id then Hear(l, r.payload) else l;
    if r.payload != CancelAnswer(id, true) then heard
    else heard.(open := false, settled := heard.settled + if handled then [RequestKind] else [])
  }

  function NextLedger(l: Ledger, s: State, input: Input, id: Id): Ledger {
    var t, asked := Step(s, input), if s.terminated then l else Ask(l, input, id);
    if |t.log| > |s.log| then Note(asked, t.log[|t.log| - 1], id in s.handlers, id) else asked
  }

  function LedgerOf(run: seq<Input>, id: Id): Ledger {
    if run == [] then Ledger([], [], false, false)
    else
      var before := run[..|run| - 1];
      NextLedger(LedgerOf(before, id), Exec(before), run[|run| - 1], id)
  }

  /** Every message asked under the id is settled in its turn, but for the one being handled. */
  predicate InTurn(l: Ledger, s: State, id: Id) {
    !l.broken && l.asked == l.settled + if id in s.handlers then [RequestKind] else []
  }

  predicate Streaming(s: State, id: Id) {
    id in s.subscriptions && s.subscriptions[id].Open?
  }

  /** Nothing is going on under the id. */
  predicate AtRest(s: State, id: Id) {
    id !in s.handlers && !Streaming(s, id)
  }

  /** Every message with the id was read while the id was at rest. */
  predicate AllAtRest(run: seq<Input>, id: Id) {
    run != [] ==>
      var before := run[..|run| - 1];
      AllAtRest(before, id) && (Carries(run[|run| - 1], id) ==> AtRest(Exec(before), id))
  }

  /** In turn, and the client sees a stream open exactly while there is one. */
  predicate Tidy(l: Ledger, s: State, id: Id) {
    InTurn(l, s, id) && (l.open <==> Streaming(s, id)) && !(id in s.handlers && l.open)
  }

  lemma CancelTidy(l: Ledger, s: State, message: Id, target: Id, id: Id)
    requires !s.terminated && Tidy(l, s, id) && (message == id ==> AtRest(s, id))
    ensures var input := Cancel(message, target, true); Tidy(NextLedger(l, s, input, id), Step(s, input), id)
  {
    CancelPlaces(s, message, target, id);
  }

  lemma MalformedTidy(l: Ledger, s: State, message: Id, id: Id)
    requires !s.terminated && Tidy(l, s, id) && (message == id ==> AtRest(s, id))
    ensures var input := Malformed(message, true); Tidy(NextLedger(l, s, input, id), Step(s, input), id)
  {
  }

  lemma DoneTidy(l: Ledger, s: State, done: Id, subscribe: bool, id: Id)
    requires !s.terminated && Tidy(l, s, id) && done in s.handlers
    ensures var input := HandlerDone(done, subscribe, true); Tidy(NextLedger(l, s, input, id), Step(s, input), id)
  {
  }

  lemma StreamTidy(l: Ledger, s: State, stream: Id, closing: bool, id: Id)
    requires !s.terminated && Tidy(l, s, id) && Streaming(s, stream)
    ensures var input := StreamInput(stream, closing); Tidy(NextLedger(l, s, input, id), Step(s, input), id)
  {
  }

  lemma SilentTidy(l: Ledger, s: State, input: Input, id: Id)
    requires !s.terminated && Tidy(l, s, id) && Possible(s, input) && (input.Request? || input.StreamSwept?)
    requires Carries(input, id) ==> AtRest(s, id)
    ensures Tidy(NextLedger(l, s, input, id), Step(s, input), id)
  {
  }

  lemma StepTidy(l: Ledger, s: State, input: Input, id: Id)
    requires !s.terminated && !Step(s, input).terminated && Tidy(l, s, id)
    requires Carries(input, id) ==> AtRest(s, id)
    ensures Tidy(NextLedger(l, s, input, id), Step(s, input), id)
  {
    if Possible(s, input) {
      SurvivedSteps(s, input);
      match input
      case Request(_) => SilentTidy(l, s, input, id);
      case Cancel(message, target, _) => CancelTidy(l, s, message, target, id);
      case Malformed(message, _) => MalformedTidy(l, s, message, id);
      case HandlerDone(done, subscribe, _) => DoneTidy(l, s, done, subscribe, id);
      case StreamItem(stream, _) => StreamTidy(l, s, stream, false, id);
      case StreamClosed(stream, _) => StreamTidy(l, s, stream, true, id);
      case StreamSwept(_) => SilentTidy(l, s, input, id);
    }
  }

  lemma {:induction false} ExecTidy(run: seq<Input>, id: Id)
    requires AllAtRest(run, id) && !Exec(run).terminated
    ensures Tidy(LedgerOf(run, id), Exec(run), id)
  {
    if run != [] {
      var before := run[..|run| - 1];
      ExecTidy(before, id);
      StepTidy(LedgerOf(before, id), Exec(before), run[|run| - 1], id);
    }
  }

  // ---------------------------------------------------------------- the exact condition

  predicate Served(run: seq<Input>, id: Id) {
    InTurn(LedgerOf(run, id), Exec(run), id)
  }

  /** `run` goes on with `more`, the connection lasts, and no further message carries the id. */
  predicate GoesOn(run: seq<Input>, more: seq<Input>, id: Id) {
    !Exec(run + more).terminated && forall i :: 0 <= i < |more| ==> !Carries(more[i], id)
  }

  lemma {:induction false} RestGoesOn(run: seq<Input>, more: seq<Input>, id: Id)
    requires AllAtRest(run, id) && forall i :: 0 <= i < |more| ==> !Carries(more[i], id)
    ensures AllAtRest(run + more, id)
  {
    if more == [] {
      assert run + more == run;
    } else {
      var n := |more| - 1;
      assert (run + more)[..|run| + n] == run + more[..n];
      RestGoesOn(run, more[..n], id);
    }
  }

  lemma Snoc(run: seq<Input>, input: Input, id: Id)
    ensures Exec(run + [input]) == Step(Exec(run), input)
    ensures LedgerOf(run + [input], id) == NextLedger(LedgerOf(run, id), Exec(run), input, id)
  {
    assert (run + [input])[..|run|] == run;
  }

  /** A message read while a request is handled under its id is out of turn at once. */
  lemma BusyFails(l: Ledger, s: State, message: Input, id: Id)
    requires !s.terminated && !Step(s, message).terminated && Tidy(l, s, id)
    requires Carries(message, id) && id in s.handlers
    ensures !InTurn(NextLedger(l, s, message, id), Step(s, message), id)
  {
    SurvivedSteps(s, message);
    var next, handlers := NextLedger(l, s, message, id), Step(s, message).handlers;
    var rest := next.settled + if id in handlers then [RequestKind] else [];
    assert next.asked == l.settled + [RequestKind] + [KindOf(message)];
    match message
    case Request(_) => assert |rest| < |next.asked|;
    case Malformed(_, _) => assert rest[|l.settled|] == MalformedKind;
    case Cancel(_, _, _) => assert rest[|l.settled|] == CancelKind;
  }

  /** One read inside an open stream gets its first response there, at once or when its handler is done. */
  lemma StreamingFails(l: Ledger, s: State, message: Input, id: Id)
    requires !s.terminated && !Step(s, message).terminated && Tidy(l, s, id)
    requires Carries(message, id) && Streaming(s, id)
    ensures var next, t := NextLedger(l, s, message, id), Step(s, message);
      if message.Request? then id in t.handlers && next.open else next.broken
  {
    SurvivedSteps(s, message);
  }

  lemma LateReplyFails(l: Ledger, s: State, id: Id)
    requires !s.terminated && id in s.handlers && l.open
    ensures var done := HandlerDone(id, false, true);
      !InTurn(NextLedger(l, s, done, id), Step(s, done), id) && !Step(s, done).terminated
  {
  }

  lemma UnrestShows(run: seq<Input>, message: Input, id: Id) returns (more: seq<Input>)
    requires AllAtRest(run, id) && Carries(message, id) && !AtRest(Exec(run), id)
    requires !Exec(run).terminated && !Exec(run + [message]).terminated
    ensures GoesOn(run + [message], more, id) && !Served(run + [message] + more, id)
  {
    var l, s, longer := LedgerOf(run, id), Exec(run), run + [message];
    ExecTidy(run, id);
    Snoc(run, message, id);
    more := [];
    if id in s.handlers {
      BusyFails(l, s, message, id);
    } else {
      StreamingFails(l, s, message, id);
      if message.Request? {
        more := [HandlerDone(id, false, true)];
        LateReplyFails(LedgerOf(longer, id), Exec(longer), id);
        Snoc(longer, more[0], id);
      }
    }
    assert longer + [] == longer;
  }

  lemma RestShows(run: seq<Input>, message: Input, more: seq<Input>, id: Id)
    requires AllAtRest(run, id) && AtRest(Exec(run), id) && GoesOn(run + [message], more, id)
    ensures Served(run + [message] + more, id)
  {
    assert (run + [message])[..|run|] == run;
    RestGoesOn(run + [message], more, id);
    ExecTidy(run + [message] + more, id);
  }

  /**
   Ids may be used again. After messages that were all read at rest, one more message with the id is
   served in its turn, however the run goes on without the id, if and only if nothing is being
   handled and no stream is open under the id when it is read.
   */
  lemma ReuseIff(run: seq<Input>, message: Input, id: Id)
    requires AllAtRest(run, id) && Carries(message, id)
    requires !Exec(run).terminated && !Exec(run + [message]).terminated
    ensures (forall more :: GoesOn(run + [message], more, id) ==> Served(run + [message] + more, id))
      <==> AtRest(Exec(run), id)
  {
    if AtRest(Exec(run), id) {
      forall more | GoesOn(run + [message], more, id) ensures Served(run + [message] + more, id) {
        RestShows(run, message, more, id);
      }
    } else {
      var more := UnrestShows(run, message, id);
    }
  }

  /** Served at this point and before, whatever might have come instead of the rest. */
  ghost predicate AlwaysServed(run: seq<Input>, id: Id) {
    && (forall more :: GoesOn(run, more, id) ==> Served(run + more, id))
    && (run != [] ==> AlwaysServed(run[..|run| - 1], id))
  }

  /** Whole runs: an id is served in turn at every point exactly if each of its messages was read at rest. */
  lemma {:induction false} ServedIffAtRest(run: seq<Input>, id: Id)
    requires !Exec(run).terminated
    ensures AlwaysServed(run, id) <==> AllAtRest(run, id)
  {
    if AllAtRest(run, id) {
      forall more | GoesOn(run, more, id) ensures Served(run + more, id) {
        RestGoesOn(run, more, id);
        ExecTidy(run + more, id);
      }
    }
    if run != [] {
      var before, last := run[..|run| - 1], run[|run| - 1];
      assert run == before + [last];
      ServedIffAtRest(before, id);
      if AllAtRest(before, id) && Carries(last, id) { ReuseIff(before, last, id); }
    }
  }

  /** An id used for one message only is always at rest when that is read. */
  lemma {:induction false} FreshIsAtRest(run: seq<Input>, id: Id)
    requires Messages(run, id) <= 1 && !Exec(run).terminated
    ensures AllAtRest(run, id)
  {
    if run != [] {
      var before := run[..|run| - 1];
      FreshIsAtRest(before, id);
      ExecCoherent(before, id);
    }
  }

  // ---------------------------------------------------------------- runs

  lemma ThreeSteps(a: Input, b: Input, c: Input, id: Id)
    ensures Exec([a, b, c]) == Step(Step(Step(INIT, a), b), c)
    ensures LedgerOf([a, b, c], id) ==
      NextLedger(NextLedger(NextLedger(Ledger([], [], false, false), INIT, a, id), Step(INIT, a), b, id),
                 Step(Step(INIT, a), b), c, id)
  {
    assert [] + [a] == [a] && [a] + [b] == [a, b] && [a, b] + [c] == [a, b, c];
    Snoc([], a, id);
    Snoc([a], b, id);
    Snoc([a, b], c, id);
  }

  lemma OutOfOrder(l: Ledger, s: State, id: Id)
    requires l.asked != [] && l.settled != [] && l.asked[0] != l.settled[0]
    ensures !InTurn(l, s, id)
  {
    assert (l.settled + if id in s.handlers then [RequestKind] else [])[0] == l.settled[0];
  }

  /** A request while its id is also that of a rejected message: the rejection comes before the reply. */
  lemma MalformedReuse()
    ensures var run := [Request(0), Malformed(0, true), HandlerDone(0, false, true)];
      && Exec(run).log == [Response(0, Rejected), Response(0, Reply)] && !Served(run, 0)
      && LedgerOf(run, 0).asked == [RequestKind, MalformedKind]
      && LedgerOf(run, 0).settled == [MalformedKind, RequestKind]
  {
    ThreeSteps(Request(0), Malformed(0, true), HandlerDone(0, false, true), 0);
    var run := [Request(0), Malformed(0, true), HandlerDone(0, false, true)];
    OutOfOrder(LedgerOf(run, 0), Exec(run), 0);
  }

  /** A request whose id is used for a cancel of something else: the cancel is answered before it. */
  lemma CancelReuse()
    ensures var run := [Request(0), Cancel(0, 5, true), HandlerDone(0, false, true)];
      && Exec(run).log == [Response(0, CancelAnswer(5, false)), Response(0, Reply)] && !Served(run, 0)
      && LedgerOf(run, 0).asked == [RequestKind, CancelKind] && LedgerOf(run, 0).settled == [CancelKind, RequestKind]
  {
    ThreeSteps(Request(0), Cancel(0, 5, true), HandlerDone(0, false, true), 0);
    var run := [Request(0), Cancel(0, 5, true), HandlerDone(0, false, true)];
    OutOfOrder(LedgerOf(run, 0), Exec(run), 0);
  }

  /** Two requests under one id: the handler of the first is dropped, so one of them is never answered. */
  lemma PendingReuse()
    ensures var run := [Request(0), Request(0), HandlerDone(0, false, true)];
      && Exec(run) == State({}, map[], [Response(0, Reply)], false) && !Served(run, 0)
      && LedgerOf(run, 0).asked == [RequestKind, RequestKind] && LedgerOf(run, 0).settled == [RequestKind]
  {
    ThreeSteps(Request(0), Request(0), HandlerDone(0, false, true), 0);
  }

  /** A request under the id of an open subscription: its reply comes in the middle of the stream. */
  lemma SubscribedReuse()
    ensures var run := [Request(0), HandlerDone(0, true, true), Request(0)] + [HandlerDone(0, false, true)];
      Exec(run).log == [Response(0, Subscribed), Response(0, Reply)] && LedgerOf(run, 0).broken && !Served(run, 0)
  {
    ThreeSteps(Request(0), HandlerDone(0, true, true), Request(0), 0);
    Snoc([Request(0), HandlerDone(0, true, true), Request(0)], HandlerDone(0, false, true), 0);
  }

  /** A request under the id of one that was answered is fine. */
  lemma SequentialReuse()
    ensures var run := [Request(0), HandlerDone(0, false, true), Request(0)] + [HandlerDone(0, false, true)];
      Exec(run).log == [Response(0, Reply), Response(0, Reply)] && Served(run, 0) && Messages(run, 0) == 2
  {
    var first := [Request(0), HandlerDone(0, false, true), Request(0)];
    ThreeSteps(first[0], first[1], first[2], 0);
    Snoc(first, HandlerDone(0, false, true), 0);
    CountThree(first[0], first[1], first[2], 0);
    assert (first + [HandlerDone(0, false, true)])[..3] == first;
  }

  lemma CountThree(a: Input, b: Input, c: Input, id: Id)
    ensures Messages([a, b, c], id) == B(Carries(a, id)) + B(Carries(b, id)) + B(Carries(c, id))
  {
    assert [a, b, c][..2] == [a, b] && [a, b][..1] == [a] && [a][..0] == [];
    assert Messages([a], id) == B(Carries(a, id));
    assert Messages([a, b], id) == Messages([a], id) + B(Carries(b, id));
  }

  function Cancels(run: seq<Input>): seq<(Id, Id)> {
    if run == [] then []
    else
      var last := run[|run| - 1];
      Cancels(run[..|run| - 1]) + if last.Cancel? then [(last.id, last.target)] else []
  }

  function CancelAnswers(log: seq<Response>): seq<(Id, Id)> {
    if log == [] then []
    else
      var last := log[|log| - 1];
      CancelAnswers(log[..|log| - 1]) + if last.payload.CancelAnswer? then [(last.id, last.payload.target)] else []
  }

  lemma SendAnswers(s: State, response: Response)
    ensures CancelAnswers(Send(s, true, response).log) ==
      CancelAnswers(s.log) + if response.payload.CancelAnswer? then [(response.id, response.payload.target)] else []
  {
    assert (s.log + [response])[..|s.log|] == s.log;
  }

  lemma StepAnswers(s: State, input: Input)
    requires !s.terminated && !Step(s, input).terminated
    ensures CancelAnswers(Step(s, input).log) ==
      CancelAnswers(s.log) + if input.Cancel? then [(input.id, input.target)] else []
  {
    if Possible(s, input) {
      SurvivedSteps(s, input);
      match input
      case Request(_) =>
      case Cancel(id, target, _) => SendAnswers(s, CancelReply(s, id, target));
      case Malformed(id, _) => SendAnswers(s, Response(id, Rejected));
      case ReadFailed =>
      case HandlerDone(id, subscribe, _) => SendAnswers(s, Response(id, if subscribe then Subscribed else Reply));
      case StreamItem(id, _) => SendAnswers(s, Response(id, Event));
      case StreamClosed(id, _) => SendAnswers(s, Response(id, Closed));
      case StreamSwept(_) =>
    }
  }

  /** Every cancel gets exactly one answer: the answers in the log are the cancels of the run, in order. */
  lemma {:induction false} EveryCancelIsAnswered(run: seq<Input>)
    requires !Exec(run).terminated
    ensures CancelAnswers(Exec(run).log) == Cancels(run)
  {
    if run != [] {
      EveryCancelIsAnswered(run[..|run| - 1]);
      StepAnswers(Exec(run[..|run| - 1]), run[|run| - 1]);
    }
  }

  // ---------------------------------------------------------------- the whole log

  /** Whether a handler runs for an id and what stream there is, told from the inputs alone. */
  datatype Standing = Standing(handled: bool, stream: Option<Subscription>)

  function Affect(p: Standing, input: Input, id: Id): Standing {
    match input
    case Request(request) => if request == id then p.(handled := true) else p
    case Cancel(_, target, _) => if target == id then Standing(false, None) else p
    case HandlerDone(done, subscribe, _) =>
      if done != id || !p.handled then p
      else if subscribe then Standing(false, Some(Open)) else p.(handled := false)
    case StreamClosed(stream, _) => if stream == id && p.stream == Some(Open) then p.(stream := Some(Finished)) else p
    case StreamSwept(stream) => if stream == id && p.stream == Some(Finished) then p.(stream := None) else p
    case _ => p
  }

  function StandingOf(run: seq<Input>, id: Id): Standing {
    if run == [] then Standing(false, None) else Affect(StandingOf(run[..|run| - 1], id), run[|run| - 1], id)
  }

  predicate StandsFor(s: State, id: Id, p: Standing) {
    (id in s.handlers <==> p.handled) && p.stream == if id in s.subscriptions then Some(s.subscriptions[id]) else None
  }

  lemma StepStands(s: State, input: Input, id: Id, p: Standing)
    requires StandsFor(s, id, p) && !s.terminated
    ensures StandsFor(Step(s, input), id, Affect(p, input, id)) || Step(s, input).terminated
  {
  }

  lemma {:induction false} ExecStands(run: seq<Input>, id: Id)
    requires !Exec(run).terminated
    ensures StandsFor(Exec(run), id, StandingOf(run, id))
  {
    if run != [] {
      ExecStands(run[..|run| - 1], id);
      StepStands(Exec(run[..|run| - 1]), run[|run| - 1], id, StandingOf(run[..|run| - 1], id));
    }
  }

  /** The response that an input calls for after a run. */
  function Answer(run: seq<Input>, input: Input): Option<Response> {
    match input
    case Cancel(id, target, _) =>
      var p := StandingOf(run, target);
      Some(Response(id, CancelAnswer(target, p.handled || p.stream.Some?)))
    case Malformed(id, _) => Some(Response(id, Rejected))
    case HandlerDone(id, subscribe, _) =>
      if StandingOf(run, id).handled then Some(Response(id, if subscribe then Subscribed else Reply)) else None
    case StreamItem(id, _) => if StandingOf(run, id).stream == Some(Open) then Some(Response(id, Event)) else None
    case StreamClosed(id, _) => if StandingOf(run, id).stream == Some(Open) then Some(Response(id, Closed)) else None
    case _ => None
  }

  function Answers(run: seq<Input>): seq<Response> {
    if run == [] then []
    else
      var before, last := run[..|run| - 1], run[|run| - 1];
      Answers(before) + match Answer(before, last) case Some(r) => [r] case None => []
  }

  /** The connection breaks down at this input, if it has not before. */
  predicate Fatal(run: seq<Input>, input: Input) {
    input.ReadFailed? || (Answer(run, input).Some? && !input.written)
  }

  lemma StepAnswersIt(run: seq<Input>, input: Input)
    requires !Exec(run).terminated
    ensures var t := Step(Exec(run), input);
      && (t.terminated <==> Fatal(run, input))
      && (!t.terminated ==> t.log == Exec(run).log + match Answer(run, input) case Some(r) => [r] case None => [])
  {
    match input
    case Cancel(_, target, _) => ExecStands(run, target);
    case HandlerDone(id, _, _) => ExecStands(run, id);
    case StreamItem(id, _) => ExecStands(run, id);
    case StreamClosed(id, _) => ExecStands(run, id);
    case _ =>
  }

  /** The log of a connection that lasts is the answers to its inputs, in order, and nothing else. */
  lemma {:induction false} LogIsAnswers(run: seq<Input>)
    requires !Exec(run).terminated
    ensures Exec(run).log == Answers(run)
  {
    if run != [] {
      LogIsAnswers(run[..|run| - 1]);
      StepAnswersIt(run[..|run| - 1], run[|run| - 1]);
    }
  }

  /** A connection ends exactly at a failed read or at an answer that cannot be written. */
  lemma {:induction false} TerminatedIff(run: seq<Input>)
    ensures Exec(run).terminated <==> exists i :: 0 <= i < |run| && Fatal(run[..i], run[i])
  {
    if run != [] {
      var n := |run| - 1;
      TerminatedIff(run[..n]);
      assert forall i :: 0 <= i < n ==> run[..n][..i] == run[..i] && run[..n][i] == run[i];
      if !Exec(run[..n]).terminated {
        StepAnswersIt(run[..n], run[n]);
      } else {
        var i :| 0 <= i < n && Fatal(run[..n][..i], run[..n][i]);
        assert Fatal(run[..i], run[i]);
      }
    }
  }

  // ---------------------------------------------------------------- the event loop

  class Connection {
    var handlers: set<Id>
    var subscriptions: map<Id, Subscription>
    var log: seq<Response>
    var terminated: bool

    ghost function View(): State
      reads this
    {
      State(handlers, subscriptions, log, terminated)
    }

    constructor ()
      ensures View() == INIT
    {
      handlers, subscriptions, log, terminated := {}, map[], [], false;
    }

    method SendResponse(response: Response, written: bool)
      modifies this`log, this`terminated
      ensures View() == Send(old(View()), written, response)
    {
      if written {
        log := log + [response];
      } else {
        terminated := true;
      }
    }

    method HandleRequest(input: Input)
      requires !terminated && (input.Request? || input.Cancel? || input.Malformed? || input.ReadFailed?)
      modifies this
      ensures View() == Step(old(View()), input)
    {
      match input {
        case Request(id) => handlers := handlers + {id};
        case Cancel(id, target, written) =>
          var handlerRemoved := target in handlers;
          handlers := handlers - {target};
          var subscriptionRemoved := target in subscriptions;
          subscriptions := subscriptions - {target};
          SendResponse(Response(id, CancelAnswer(target, handlerRemoved || subscriptionRemoved)), written);
        case Malformed(id, written) => SendResponse(Response(id, Rejected), written);
        case ReadFailed => terminated := true;
      }
    }

    method HandleEvent(id: Id, closing: bool, written: bool)
      requires !terminated && id in subscriptions && subscriptions[id].Open?
      modifies this
      ensures View() == Step(old(View()), if closing then StreamClosed(id, written) else StreamItem(id, written))
    {
      if closing { subscriptions := subscriptions[id := Finished]; }
      SendResponse(Response(id, if closing then Closed else Event), written);
    }

    method HandleAction(id: Id, subscribe: bool, written: bool)
      requires !terminated && id in handlers
      modifies this
      ensures View() == Step(old(View()), HandlerDone(id, subscribe, written))
    {
      handlers := handlers - {id};
      if subscribe {
        subscriptions := subscriptions[id := Open];
        SendResponse(Response(id, Subscribed), written);
      } else {
        SendResponse(Response(id, Reply), written);
      }
    }
  }
}
