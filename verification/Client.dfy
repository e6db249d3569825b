/**
 The client of the service (bindings/cpp/ouisync/client.cpp): who is called back for which message,
 and who may write the send buffer.

 Callbacks are run one at a time, in any order. The handlers given to `invoke_impl` are numbered;
 `completed` logs each handler that was run or posted to be run, with its outcome.
 */
module Client {
  import opened Options
  import S = Semaphore

  type Id = nat
  type Handler = nat

  datatype Payload = Content(content: nat) | CancelRequest(target: Id)

  datatype Message = Message(id: Id, payload: Payload)

  /** What is registered for a message: the handler itself, or the callback of the request that cancels it. */
  datatype Entry = Own(handler: Handler) | CancelOf(handler: Handler)

  datatype Outcome = Answered(id: Id) | Aborted | ProtocolError | Failed

  datatype Completion = Completion(handler: Handler, outcome: Outcome)

  /** `drawn`: ids taken from the counter whose request has not been initiated yet. */
  datatype Book = Book(
    responses: map<Id, Entry>,
    next: Id,
    drawn: set<Id>,
    issued: map<Handler, Id>,
    completed: seq<Completion>,
    disconnected: bool)

  /** `sends[k]` is what the k-th `get_permit` is for; `writing` the sends with a socket write in progress. */
  datatype Wire = Wire(
    semaphore: S.State,
    sends: seq<Message>,
    buffer: Option<Message>,
    writing: set<nat>,
    written: seq<Message>)

  datatype State = State(book: Book, wire: Wire)

  const INIT := State(Book(map[], 0, {}, map[], [], false), Wire(S.INIT, [], None, {}, []))

  /** The kinds of response that matter to the callback of a cancel request. */
  datatype Reply = Bool | OtherValue | Error

  datatype Action =
    | DrawId
    | Invoke(handler: Handler, id: Id, content: nat)
    | Cancel(id: Id)                               // the cancellation slot of the request `id` fires
    | Arrive(id: Id, reply: Reply)                 // the receive job reads a response
    | RunGrant(index: nat)                         // the executor runs a handed-over permit's callback
    | WriteDone(send: nat, written: bool)
    | DropPermit(send: nat)                        // the write's callback, and the permit in it, is destroyed
    | ReceiveEnded(order: seq<Id>)                 // the receive job fails all that is registered, in this order

  // ---------------------------------------------------------------- who is called back

  function Complete(b: Book, handler: Handler, outcome: Outcome): Book {
    b.(completed := b.completed + [Completion(handler, outcome)])
  }

  /** `emplace` keeps an entry that is already there. */
  function Register(b: Book, id: Id, entry: Entry): Book {
    if id in b.responses then b else b.(responses := b.responses[id := entry])
  }

  /** The handler registered for `id`, if any, is taken out and called. */
  function Finish(b: Book, id: Id, outcome: Outcome): Book {
    if id !in b.responses then b
    else Complete(b.(responses := b.responses - {id}), b.responses[id].handler, outcome)
  }

  function OutcomeOf(entry: Entry, id: Id, reply: Reply): Outcome {
    match entry
    case Own(_) => Answered(id)
    case CancelOf(_) => if reply.Error? then Failed else if reply.Bool? then Aborted else ProtocolError
  }

  function BookInvoke(b: Book, handler: Handler, id: Id): Book {
    var c := b.(drawn := b.drawn - {id}, issued := b.issued[handler := id]);
    if b.disconnected then Complete(c, handler, Failed) else Register(c, id, Own(handler))
  }

  function BookCancel(b: Book, id: Id): Book {
    if id !in b.responses then b
    else
      var handler := b.responses[id].handler;
      var c := b.(responses := b.responses - {id}, next := b.next + 1);
      if b.disconnected then Complete(c, handler, Failed) else Register(c, b.next, CancelOf(handler))
  }

  function BookArrive(b: Book, id: Id, reply: Reply): Book {
    if id !in b.responses then b else Finish(b, id, OutcomeOf(b.responses[id], id, reply))
  }

  function FailAll(b: Book, order: seq<Id>): Book
    decreases |order|
  {
    if order == [] then b else FailAll(Finish(b, order[0], Failed), order[1..])
  }

  // ---------------------------------------------------------------- who writes

  /** The callback of a granted permit: fill the buffer and start writing from it. */
  function Prepare(w: Wire, send: nat): Wire
    requires send < |w.sends|
  {
    w.(buffer := Some(w.sends[send]), writing := w.writing + {send}, written := w.written + [w.sends[send]])
  }

  function WireSend(w: Wire, message: Message): Wire {
    var v := w.(semaphore := S.Step(w.semaphore, S.GetPermit), sends := w.sends + [message]);
    if !w.semaphore.hasActive && w.semaphore.next < |v.sends| then Prepare(v, w.semaphore.next) else v
  }

  function WireGrant(w: Wire, index: nat): Wire {
    if index < |w.semaphore.posted| && w.semaphore.posted[index] < |w.sends| then
      Prepare(w.(semaphore := S.Step(w.semaphore, S.RunPosted(index))), w.semaphore.posted[index])
    else w
  }

  // ---------------------------------------------------------------- steps

  /** Ids come from the counter; handlers are distinct objects; callbacks exist once. */
  predicate Enabled(s: State, a: Action) {
    match a
    case DrawId => true
    case Invoke(handler, id, _) => id in s.book.drawn && handler !in s.book.issued
    case Cancel(_) => true
    case Arrive(_, _) => !s.book.disconnected
    case RunGrant(index) => index < |s.wire.semaphore.posted|
    case WriteDone(send, _) => send in s.wire.writing && send < |s.wire.sends|
    case DropPermit(send) => send in s.wire.semaphore.live && send !in s.wire.writing
    case ReceiveEnded(order) => !s.book.disconnected && forall id :: id in s.book.responses ==> id in order
  }

  function StepBook(s: State, a: Action): Book
    requires Enabled(s, a)
  {
    match a
    case DrawId => s.book.(next := s.book.next + 1, drawn := s.book.drawn + {s.book.next})
    case Invoke(handler, id, _) => BookInvoke(s.book, handler, id)
    case Cancel(id) => BookCancel(s.book, id)
    case Arrive(id, reply) => BookArrive(s.book, id, reply)
    case RunGrant(_) => s.book
    case WriteDone(send, written) => if written then s.book else Finish(s.book, s.wire.sends[send].id, Failed)
    case DropPermit(_) => s.book
    case ReceiveEnded(order) => FailAll(s.book, order).(disconnected := true)
  }

  function StepWire(s: State, a: Action): Wire
    requires Enabled(s, a)
  {
    match a
    case DrawId => s.wire
    case Invoke(_, id, content) =>
      if s.book.disconnected then s.wire else WireSend(s.wire, Message(id, Content(content)))
    case Cancel(id) =>
      if id !in s.book.responses || s.book.disconnected then s.wire
      else WireSend(s.wire, Message(s.book.next, CancelRequest(id)))
    case Arrive(_, _) => s.wire
    case RunGrant(index) => WireGrant(s.wire, index)
    case WriteDone(send, _) => s.wire.(writing := s.wire.writing - {send})
    case DropPermit(send) => s.wire.(semaphore := S.Step(s.wire.semaphore, S.DropPermit(send)))
    case ReceiveEnded(_) => s.wire
  }

  function Step(s: State, a: Action): State {
    if Enabled(s, a) then State(StepBook(s, a), StepWire(s, a)) else s
  }

  function Exec(run: seq<Action>): State {
    if run == [] then INIT else Step(Exec(run[..|run| - 1]), run[|run| - 1])
  }

  // ---------------------------------------------------------------- ids

  /** Registered and drawn ids come from the counter, and no id is both. */
  predicate IdsOk(b: Book) {
    && (forall id :: id in b.responses ==> id < b.next && id !in b.drawn)
    && (forall id :: id in b.drawn ==> id < b.next)
  }

  lemma FinishIds(b: Book, id: Id, outcome: Outcome)
    requires IdsOk(b)
    ensures IdsOk(Finish(b, id, outcome))
  {
  }

  lemma {:induction false} FailAllIds(b: Book, order: seq<Id>)
    requires IdsOk(b)
    ensures IdsOk(FailAll(b, order))
    decreases |order|
  {
    if order != [] {
      FinishIds(b, order[0], Failed);
      FailAllIds(Finish(b, order[0], Failed), order[1..]);
    }
  }

  lemma StepIds(s: State, a: Action)
    requires IdsOk(s.book) && Enabled(s, a)
    ensures IdsOk(StepBook(s, a))
  {
    match a
    case ReceiveEnded(order) => FailAllIds(s.book, order);
    case _ =>
  }

  // ---------------------------------------------------------------- exactly once

  function Times(completed: seq<Completion>, handler: Handler): nat {
    if completed == [] then 0
    else
      Times(completed[..|completed| - 1], handler) + if completed[|completed| - 1].handler == handler then 1 else 0
  }

  /** The ids under which the handler is registered. */
  function Places(b: Book, handler: Handler): set<Id> {
    set id | id in b.responses && b.responses[id].handler == handler
  }

  /** A handler that was given away is registered once or was completed once, and not both. */
  predicate Accounted(b: Book, handler: Handler) {
    Times(b.completed, handler) + |Places(b, handler)| == if handler in b.issued then 1 else 0
  }

  lemma TimesSnoc(completed: seq<Completion>, c: Completion, handler: Handler)
    ensures Times(completed + [c], handler) == Times(completed, handler) + if c.handler == handler then 1 else 0
  {
    assert (completed + [c])[..|completed|] == completed;
  }

  lemma TakePlaces(b: Book, id: Id, handler: Handler)
    requires id in b.responses
    ensures |Places(b.(responses := b.responses - {id}), handler)|
      == |Places(b, handler)| - if b.responses[id].handler == handler then 1 else 0
  {
    var c := b.(responses := b.responses - {id});
    assert Places(c, handler) == Places(b, handler) - {id};
    if b.responses[id].handler == handler { assert id in Places(b, handler); }
  }

  lemma RegisterPlaces(b: Book, id: Id, entry: Entry, handler: Handler)
    requires id !in b.responses
    ensures |Places(Register(b, id, entry), handler)| ==
      |Places(b, handler)| + if entry.handler == handler then 1 else 0
  {
    if entry.handler == handler {
      assert Places(Register(b, id, entry), handler) == Places(b, handler) + {id};
    } else {
      assert Places(Register(b, id, entry), handler) == Places(b, handler);
    }
  }

  lemma FinishAccounted(b: Book, id: Id, outcome: Outcome, handler: Handler)
    requires Accounted(b, handler)
    ensures Accounted(Finish(b, id, outcome), handler)
  {
    if id in b.responses {
      TakePlaces(b, id, handler);
      TimesSnoc(b.completed, Completion(b.responses[id].handler, outcome), handler);
      assert Places(Finish(b, id, outcome), handler) == Places(b.(responses := b.responses - {id}), handler);
    }
  }

  lemma InvokeAccounted(b: Book, given: Handler, id: Id, handler: Handler)
    requires Accounted(b, handler) && given !in b.issued && id !in b.responses
    ensures Accounted(BookInvoke(b, given, id), handler)
  {
    var c := b.(drawn := b.drawn - {id}, issued := b.issued[given := id]);
    assert Places(c, handler) == Places(b, handler);
    if b.disconnected {
      TimesSnoc(b.completed, Completion(given, Failed), handler);
      assert Places(BookInvoke(b, given, id), handler) == Places(c, handler);
    } else {
      RegisterPlaces(c, id, Own(given), handler);
    }
  }

  lemma CancelAccounted(b: Book, id: Id, handler: Handler)
    requires Accounted(b, handler) && IdsOk(b)
    ensures Accounted(BookCancel(b, id), handler)
  {
    if id in b.responses {
      TakePlaces(b, id, handler);
      var owner := b.responses[id].handler;
      var c := b.(responses := b.responses - {id}, next := b.next + 1);
      assert Places(c, handler) == Places(b.(responses := b.responses - {id}), handler);
      if b.disconnected {
        TimesSnoc(b.completed, Completion(owner, Failed), handler);
        assert Places(BookCancel(b, id), handler) == Places(c, handler);
      } else {
        RegisterPlaces(c, b.next, CancelOf(owner), handler);
      }
    }
  }

  lemma {:induction false} FailAllAccounted(b: Book, order: seq<Id>, handler: Handler)
    requires Accounted(b, handler)
    ensures Accounted(FailAll(b, order), handler)
    decreases |order|
  {
    if order != [] {
      FinishAccounted(b, order[0], Failed, handler);
      FailAllAccounted(Finish(b, order[0], Failed), order[1..], handler);
    }
  }

  lemma SamePlaces(b: Book, c: Book, handler: Handler)
    requires b.responses == c.responses && b.completed == c.completed && b.issued == c.issued
    requires Accounted(b, handler)
    ensures Accounted(c, handler)
  {
    assert Places(b, handler) == Places(c, handler);
  }

  lemma StepAccounted(s: State, a: Action, handler: Handler)
    requires IdsOk(s.book) && Accounted(s.book, handler) && Enabled(s, a)
    ensures Accounted(StepBook(s, a), handler)
  {
    match a
    case DrawId => SamePlaces(s.book, StepBook(s, a), handler);
    case Invoke(given, id, _) => InvokeAccounted(s.book, given, id, handler);
    case Cancel(id) => CancelAccounted(s.book, id, handler);
    case Arrive(id, reply) =>
      if id in s.book.responses { FinishAccounted(s.book, id, OutcomeOf(s.book.responses[id], id, reply), handler); }
    case RunGrant(_) =>
    case WriteDone(send, _) => FinishAccounted(s.book, s.wire.sends[send].id, Failed, handler);
    case DropPermit(_) =>
    case ReceiveEnded(order) =>
      FailAllAccounted(s.book, order, handler);
      SamePlaces(FailAll(s.book, order), StepBook(s, a), handler);
  }

  lemma {:induction false} ExecAccounted(run: seq<Action>, handler: Handler)
    ensures IdsOk(Exec(run).book) && Accounted(Exec(run).book, handler)
  {
    if run != [] {
      var before, a := Exec(run[..|run| - 1]), run[|run| - 1];
      ExecAccounted(run[..|run| - 1], handler);
      if Enabled(before, a) {
        StepIds(before, a);
        StepAccounted(before, a, handler);
      }
    }
  }

  // ---------------------------------------------------------------- disconnection

  lemma {:induction false} FailAllEmpties(b: Book, order: seq<Id>)
    requires forall id :: id in b.responses ==> id in order
    ensures FailAll(b, order).responses == map[]
    decreases |order|
  {
    if order == [] {
      assert b.responses == map[];
    } else {
      var c := Finish(b, order[0], Failed);
      forall id | id in c.responses
        ensures id in order[1..]
      {
        assert id in order && id != order[0];
      }
      FailAllEmpties(c, order[1..]);
    }
  }

  lemma {:induction false} NothingLeft(run: seq<Action>)
    ensures Exec(run).book.disconnected ==> Exec(run).book.responses == map[]
  {
    if run != [] {
      var before, a := Exec(run[..|run| - 1]), run[|run| - 1];
      NothingLeft(run[..|run| - 1]);
      if Enabled(before, a) && a.ReceiveEnded? {
        FailAllEmpties(before.book, a.order);
      } else if Enabled(before, a) && before.book.disconnected {
        StillEmpty(before, a);
      }
    }
  }

  lemma StillEmpty(s: State, a: Action)
    requires s.book.disconnected && s.book.responses == map[] && Enabled(s, a)
    ensures StepBook(s, a).responses == map[]
  {
  }

  /**
   Every handler given to the client is completed at most once, in every run; exactly once as soon
   as it is no longer registered, and in particular once the client is disconnected.
   */
  lemma ExactlyOnce(run: seq<Action>, handler: Handler)
    ensures var b := Exec(run).book;
      && Times(b.completed, handler) <= 1
      && (Times(b.completed, handler) == 1 ==> handler in b.issued && Places(b, handler) == {})
      && (handler in b.issued && Places(b, handler) == {} ==> Times(b.completed, handler) == 1)
      && (handler in b.issued && b.disconnected ==> Times(b.completed, handler) == 1)
  {
    ExecAccounted(run, handler);
    NothingLeft(run);
    var b := Exec(run).book;
    if b.responses == map[] { assert Places(b, handler) == {}; }
  }

  // ---------------------------------------------------------------- the right answer

  /** A handler registered in its own name, or answered, goes with the id it was issued under. */
  predicate Matched(b: Book) {
    && (forall id :: id in b.responses && b.responses[id].Own? ==>
          b.responses[id].handler in b.issued && b.issued[b.responses[id].handler] == id)
    && (forall i :: 0 <= i < |b.completed| && b.completed[i].outcome.Answered? ==>
          b.completed[i].handler in b.issued && b.issued[b.completed[i].handler] == b.completed[i].outcome.id)
  }

  lemma FinishMatched(b: Book, id: Id, outcome: Outcome)
    requires Matched(b)
    requires id in b.responses && outcome.Answered? ==> b.responses[id].Own? && outcome.id == id
    ensures Matched(Finish(b, id, outcome))
  {
  }

  lemma {:induction false} FailAllMatched(b: Book, order: seq<Id>)
    requires Matched(b)
    ensures Matched(FailAll(b, order))
    decreases |order|
  {
    if order != [] {
      FinishMatched(b, order[0], Failed);
      FailAllMatched(Finish(b, order[0], Failed), order[1..]);
    }
  }

  lemma StepMatched(s: State, a: Action)
    requires Matched(s.book) && Enabled(s, a)
    ensures Matched(StepBook(s, a))
  {
    match a
    case Arrive(id, reply) =>
      if id in s.book.responses { FinishMatched(s.book, id, OutcomeOf(s.book.responses[id], id, reply)); }
    case WriteDone(send, _) => FinishMatched(s.book, s.wire.sends[send].id, Failed);
    case ReceiveEnded(order) => FailAllMatched(s.book, order);
    case _ =>
  }

  /** A handler is only ever given the response to its own request. */
  lemma {:induction false} AnswersMatch(run: seq<Action>)
    ensures Matched(Exec(run).book)
  {
    if run != [] {
      var before, a := Exec(run[..|run| - 1]), run[|run| - 1];
      AnswersMatch(run[..|run| - 1]);
      if Enabled(before, a) { StepMatched(before, a); }
    }
  }

  /** The handler's request is out of its hands: registered at most on behalf of a cancel request. */
  predicate GivenUp(b: Book, handler: Handler) {
    && handler in b.issued
    && (forall id :: id in b.responses && b.responses[id].handler == handler ==> b.responses[id].CancelOf?)
    && (forall i :: 0 <= i < |b.completed| && b.completed[i].handler == handler ==> !b.completed[i].outcome.Answered?)
  }

  lemma FinishGivenUp(b: Book, id: Id, outcome: Outcome, handler: Handler)
    requires GivenUp(b, handler)
    requires id in b.responses && b.responses[id].CancelOf? ==> !outcome.Answered?
    ensures GivenUp(Finish(b, id, outcome), handler)
  {
  }

  lemma {:induction false} FailAllGivenUp(b: Book, order: seq<Id>, handler: Handler)
    requires GivenUp(b, handler)
    ensures GivenUp(FailAll(b, order), handler)
    decreases |order|
  {
    if order != [] {
      FinishGivenUp(b, order[0], Failed, handler);
      FailAllGivenUp(Finish(b, order[0], Failed), order[1..], handler);
    }
  }

  lemma StepGivenUp(s: State, a: Action, handler: Handler)
    requires GivenUp(s.book, handler) && Enabled(s, a)
    ensures GivenUp(StepBook(s, a), handler)
  {
    match a
    case Arrive(id, reply) =>
      if id in s.book.responses { FinishGivenUp(s.book, id, OutcomeOf(s.book.responses[id], id, reply), handler); }
    case WriteDone(send, _) => FinishGivenUp(s.book, s.wire.sends[send].id, Failed, handler);
    case ReceiveEnded(order) => FailAllGivenUp(s.book, order, handler);
    case _ =>
  }

  function Continue(s: State, run: seq<Action>): State {
    if run == [] then s else Step(Continue(s, run[..|run| - 1]), run[|run| - 1])
  }

  lemma {:induction false} StaysGivenUp(s: State, run: seq<Action>, handler: Handler)
    requires GivenUp(s.book, handler)
    ensures GivenUp(Continue(s, run).book, handler)
  {
    if run != [] {
      var before, a := Continue(s, run[..|run| - 1]), run[|run| - 1];
      StaysGivenUp(s, run[..|run| - 1], handler);
      if Enabled(before, a) { StepGivenUp(before, a, handler); }
    }
  }

  /** A request that was cancelled while registered is never completed with a response, whatever comes later. */
  lemma CancelledIsNeverAnswered(past: seq<Action>, id: Id, future: seq<Action>)
    requires id in Exec(past).book.responses
    ensures var handler := Exec(past).book.responses[id].handler;
      GivenUp(Continue(Step(Exec(past), Cancel(id)), future).book, handler)
  {
    var s := Exec(past);
    var handler := s.book.responses[id].handler;
    ExecAccounted(past, handler);
    OnlyPlace(s.book, id);
    StaysGivenUp(Step(s, Cancel(id)), future, handler);
  }

  /** A registered handler is registered nowhere else and not completed. */
  lemma OnlyPlace(b: Book, id: Id)
    requires id in b.responses && Accounted(b, b.responses[id].handler)
    ensures var handler := b.responses[id].handler;
      && handler in b.issued
      && (forall j :: j in b.responses && b.responses[j].handler == handler ==> j == id)
      && (forall i :: 0 <= i < |b.completed| ==> b.completed[i].handler != handler)
  {
    var handler := b.responses[id].handler;
    assert id in Places(b, handler);
    assert |Places(b, handler) - {id}| == 0;
    assert forall j :: j in b.responses && b.responses[j].handler == handler ==> j in Places(b, handler);
    forall i | 0 <= i < |b.completed|
      ensures b.completed[i].handler != handler
    {
      TimesPositive(b.completed, i);
    }
  }

  lemma {:induction false} TimesPositive(completed: seq<Completion>, i: nat)
    requires i < |completed|
    ensures Times(completed, completed[i].handler) > 0
  {
    if i < |completed| - 1 { TimesPositive(completed[..|completed| - 1], i); }
  }

  // ---------------------------------------------------------------- what each handler is told, and why

  /** What has become of a handler, told from the inputs alone. */
  datatype Story = NotGiven | Waiting(id: Id) | Cancelling(id: Id) | Over(outcome: Outcome)

  function NextStory(story: Story, handler: Handler, s: State, a: Action): Story {
    if !Enabled(s, a) then story else
    match a
    case Invoke(given, id, _) =>
      if given != handler then story else if s.book.disconnected then Over(Failed) else Waiting(id)
    case Cancel(id) => if story == Waiting(id) || story == Cancelling(id) then Cancelling(s.book.next) else story
    case Arrive(id, reply) =>
      if story == Waiting(id) then Over(Answered(id))
      else if story != Cancelling(id) then story
      else (match reply case Bool => Over(Aborted) case OtherValue => Over(ProtocolError) case Error => Over(Failed))
    case WriteDone(send, written) =>
      var id := s.wire.sends[send].id;
      if !written && (story == Waiting(id) || story == Cancelling(id)) then Over(Failed) else story
    case ReceiveEnded(_) => if story.Waiting? || story.Cancelling? then Over(Failed) else story
    case _ => story
  }

  function StoryOf(run: seq<Action>, handler: Handler): Story {
    if run == [] then NotGiven
    else NextStory(StoryOf(run[..|run| - 1], handler), handler, Exec(run[..|run| - 1]), run[|run| - 1])
  }

  predicate CompletedWith(b: Book, handler: Handler, outcome: Outcome) {
    && (exists i :: 0 <= i < |b.completed| && b.completed[i] == Completion(handler, outcome))
    && (forall i :: 0 <= i < |b.completed| && b.completed[i].handler == handler ==> b.completed[i].outcome == outcome)
  }

  /** The book of the client says the same. */
  predicate Told(b: Book, handler: Handler, story: Story) {
    && (handler in b.issued <==> !story.NotGiven?)
    && (forall id :: id in b.responses && b.responses[id].handler == handler ==>
          (story == Waiting(id) && b.responses[id].Own?) || (story == Cancelling(id) && b.responses[id].CancelOf?))
    && (story.Waiting? || story.Cancelling? ==> story.id in b.responses && b.responses[story.id].handler == handler)
    && (story.Over? ==> CompletedWith(b, handler, story.outcome))
    && (!story.Over? ==> forall i :: 0 <= i < |b.completed| ==> b.completed[i].handler != handler)
  }

  lemma CompletedLast(b: Book, handler: Handler, outcome: Outcome)
    requires forall i :: 0 <= i < |b.completed| ==> b.completed[i].handler != handler
    ensures CompletedWith(Complete(b, handler, outcome), handler, outcome)
  {
    assert Complete(b, handler, outcome).completed[|b.completed|] == Completion(handler, outcome);
  }

  lemma CompletedStays(b: Book, other: Completion, handler: Handler, outcome: Outcome)
    requires CompletedWith(b, handler, outcome) && other.handler != handler
    ensures CompletedWith(b.(completed := b.completed + [other]), handler, outcome)
  {
    var i :| 0 <= i < |b.completed| && b.completed[i] == Completion(handler, outcome);
    assert (b.completed + [other])[i] == Completion(handler, outcome);
  }

  /** Taking a registered handler out ends its story, and no other. */
  lemma FinishTold(b: Book, id: Id, outcome: Outcome, handler: Handler, story: Story)
    requires Told(b, handler, story)
    ensures Told(Finish(b, id, outcome), handler,
                 if story == Waiting(id) || story == Cancelling(id) then Over(outcome) else story)
  {
    if id in b.responses {
      var c := b.(responses := b.responses - {id});
      if b.responses[id].handler == handler {
        CompletedLast(c, handler, outcome);
      } else if story.Over? {
        CompletedStays(c, Completion(b.responses[id].handler, outcome), handler, story.outcome);
      }
    }
  }

  lemma InvokeTold(b: Book, given: Handler, id: Id, handler: Handler, story: Story)
    requires Told(b, handler, story) && given !in b.issued && id !in b.responses
    ensures Told(BookInvoke(b, given, id), handler,
                 if given != handler then story else if b.disconnected then Over(Failed) else Waiting(id))
  {
    var c := b.(drawn := b.drawn - {id}, issued := b.issued[given := id]);
    if b.disconnected {
      if given == handler {
        CompletedLast(c, handler, Failed);
      } else if story.Over? {
        CompletedStays(c, Completion(given, Failed), handler, story.outcome);
      }
    }
  }

  lemma CancelTold(b: Book, id: Id, handler: Handler, story: Story)
    requires Told(b, handler, story) && IdsOk(b) && (b.disconnected ==> b.responses == map[])
    ensures Told(BookCancel(b, id), handler,
                 if story == Waiting(id) || story == Cancelling(id) then Cancelling(b.next) else story)
  {
  }

  lemma ArriveTold(b: Book, id: Id, reply: Reply, handler: Handler, story: Story)
    requires Told(b, handler, story)
    ensures Told(BookArrive(b, id, reply), handler,
      if story == Waiting(id) then Over(Answered(id))
      else if story != Cancelling(id) then story
      else match reply case Bool => Over(Aborted) case OtherValue => Over(ProtocolError) case Error => Over(Failed))
  {
    if id in b.responses { FinishTold(b, id, OutcomeOf(b.responses[id], id, reply), handler, story); }
  }

  lemma {:induction false} FailAllTold(b: Book, order: seq<Id>, handler: Handler, story: Story)
    requires Told(b, handler, story)
    ensures Told(FailAll(b, order), handler,
                 if (story.Waiting? || story.Cancelling?) && story.id in order then Over(Failed) else story)
    decreases |order|
  {
    if order != [] {
      FinishTold(b, order[0], Failed, handler, story);
      var next := if story == Waiting(order[0]) || story == Cancelling(order[0]) then Over(Failed) else story;
      FailAllTold(Finish(b, order[0], Failed), order[1..], handler, next);
      assert order == [order[0]] + order[1..];
    }
  }

  lemma TellSame(b: Book, c: Book, handler: Handler, story: Story)
    requires Told(b, handler, story) && c.responses == b.responses && c.completed == b.completed && c.issued == b.issued
    ensures Told(c, handler, story)
  {
  }

  lemma StepTold(s: State, a: Action, handler: Handler, story: Story)
    requires Told(s.book, handler, story) && IdsOk(s.book) && Enabled(s, a)
    requires s.book.disconnected ==> s.book.responses == map[]
    ensures Told(StepBook(s, a), handler, NextStory(story, handler, s, a))
  {
    match a
    case DrawId => TellSame(s.book, StepBook(s, a), handler, story);
    case Invoke(given, id, _) => InvokeTold(s.book, given, id, handler, story);
    case Cancel(id) => CancelTold(s.book, id, handler, story);
    case Arrive(id, reply) => ArriveTold(s.book, id, reply, handler, story);
    case RunGrant(_) =>
    case WriteDone(send, _) => FinishTold(s.book, s.wire.sends[send].id, Failed, handler, story);
    case DropPermit(_) =>
    case ReceiveEnded(order) =>
      FailAllTold(s.book, order, handler, story);
      TellSame(FailAll(s.book, order), StepBook(s, a), handler, NextStory(story, handler, s, a));
  }

  /**
   Every completion by its cause, over every run. A handler is completed with the response to its own
   request; once its request is cancelled, with what the reply to the cancel request says; and with a
   failure only by a failed write, the end of the receive job or a client that is disconnected.
   */
  lemma {:induction false} StoriesAreTrue(run: seq<Action>, handler: Handler)
    ensures Told(Exec(run).book, handler, StoryOf(run, handler))
  {
    if run != [] {
      var before, a := Exec(run[..|run| - 1]), run[|run| - 1];
      StoriesAreTrue(run[..|run| - 1], handler);
      if Enabled(before, a) {
        ExecAccounted(run[..|run| - 1], handler);
        NothingLeft(run[..|run| - 1]);
        StepTold(before, a, handler, StoryOf(run[..|run| - 1], handler));
      }
    }
  }

  // ---------------------------------------------------------------- what is sent

  /** The requests that reach the connection: one per call, and one per cancellation of a registered request. */
  function Requests(run: seq<Action>): seq<Message> {
    if run == [] then []
    else
      var before, a := Exec(run[..|run| - 1]), run[|run| - 1];
      Requests(run[..|run| - 1]) +
        if before.book.disconnected || !Enabled(before, a) then []
        else
          match a
          case Invoke(_, id, content) => [Message(id, Content(content))]
          case Cancel(id) =>
            if id in before.book.responses then [Message(before.book.next, CancelRequest(id))] else []
          case _ => []
  }

  lemma WireSends(w: Wire, message: Message)
    ensures WireSend(w, message).sends == w.sends + [message]
  {
  }

  /** The sends are the requests, in order and with their content. */
  lemma {:induction false} SendsAreRequests(run: seq<Action>)
    ensures Exec(run).wire.sends == Requests(run)
  {
    if run != [] {
      var before, a := Exec(run[..|run| - 1]), run[|run| - 1];
      SendsAreRequests(run[..|run| - 1]);
      match a
      case Invoke(_, id, content) => WireSends(before.wire, Message(id, Content(content)));
      case Cancel(id) => WireSends(before.wire, Message(before.book.next, CancelRequest(id)));
      case _ =>
    }
  }

  // ---------------------------------------------------------------- the send buffer

  predicate WireInv(w: Wire) {
    && S.Inv(w.semaphore) && S.Exclusive(w.semaphore) && S.Numbered(w.semaphore) && !w.semaphore.destroyed
    && w.semaphore.next == |w.sends|
    && (forall k :: k in w.writing ==> k in w.semaphore.live && k < |w.sends| && w.buffer == Some(w.sends[k]))
  }

  /** What was written is what was sent, up to the send that has just been handed the permit. */
  predicate Flushed(w: Wire) {
    && |w.written| + |w.semaphore.posted| == |w.semaphore.served|
    && (w.semaphore.posted != [] ==> w.semaphore.posted == [|w.written|])
    && w.written <= w.sends
  }

  lemma SendKeeps(w: Wire, message: Message)
    requires WireInv(w)
    ensures WireInv(WireSend(w, message))
  {
    S.StepInv(w.semaphore, S.GetPermit);
    S.StepExclusive(w.semaphore, S.GetPermit);
    S.StepNumbered(w.semaphore, S.GetPermit);
  }

  lemma GrantKeeps(w: Wire, index: nat)
    requires WireInv(w)
    ensures WireInv(WireGrant(w, index))
  {
    S.StepInv(w.semaphore, S.RunPosted(index));
    S.StepExclusive(w.semaphore, S.RunPosted(index));
    S.StepNumbered(w.semaphore, S.RunPosted(index));
  }

  lemma DropKeeps(w: Wire, send: nat)
    requires WireInv(w) && send in w.semaphore.live && send !in w.writing
    ensures WireInv(w.(semaphore := S.Step(w.semaphore, S.DropPermit(send))))
  {
    S.StepInv(w.semaphore, S.DropPermit(send));
    S.StepExclusive(w.semaphore, S.DropPermit(send));
    S.StepNumbered(w.semaphore, S.DropPermit(send));
  }

  lemma StepWireInv(s: State, a: Action)
    requires WireInv(s.wire) && Enabled(s, a)
    ensures WireInv(StepWire(s, a))
  {
    match a
    case Invoke(_, id, content) => SendKeeps(s.wire, Message(id, Content(content)));
    case Cancel(id) => SendKeeps(s.wire, Message(s.book.next, CancelRequest(id)));
    case RunGrant(index) => GrantKeeps(s.wire, index);
    case DropPermit(send) => DropKeeps(s.wire, send);
    case _ =>
  }

  lemma SendFlushes(w: Wire, message: Message)
    requires WireInv(w) && Flushed(w)
    ensures Flushed(WireSend(w, message))
  {
    if !w.semaphore.hasActive {
      assert w.semaphore.served == w.semaphore.served + w.semaphore.queue;
      assert w.written == w.sends;
    }
  }

  lemma GrantFlushes(w: Wire, index: nat)
    requires WireInv(w) && Flushed(w)
    ensures Flushed(WireGrant(w, index))
  {
    if index < |w.semaphore.posted| && w.semaphore.posted[index] < |w.sends| {
      assert index == 0;
      assert w.semaphore.posted[..0] + w.semaphore.posted[1..] == [];
    }
  }

  lemma DropFlushes(w: Wire, send: nat)
    requires WireInv(w) && Flushed(w) && send in w.semaphore.live
    ensures Flushed(w.(semaphore := S.Step(w.semaphore, S.DropPermit(send))))
  {
    if w.semaphore.queue != [] {
      assert (w.semaphore.served + w.semaphore.queue)[|w.semaphore.served|] == w.semaphore.queue[0];
    }
  }

  lemma StepFlushed(s: State, a: Action)
    requires WireInv(s.wire) && Flushed(s.wire) && Enabled(s, a)
    ensures Flushed(StepWire(s, a))
  {
    match a
    case Invoke(_, id, content) => SendFlushes(s.wire, Message(id, Content(content)));
    case Cancel(id) => SendFlushes(s.wire, Message(s.book.next, CancelRequest(id)));
    case RunGrant(index) => GrantFlushes(s.wire, index);
    case DropPermit(send) => DropFlushes(s.wire, send);
    case _ =>
  }

  lemma {:induction false} ExecWire(run: seq<Action>)
    ensures WireInv(Exec(run).wire) && Flushed(Exec(run).wire)
  {
    if run != [] {
      var before, a := Exec(run[..|run| - 1]), run[|run| - 1];
      ExecWire(run[..|run| - 1]);
      if Enabled(before, a) {
        StepWireInv(before, a);
        StepFlushed(before, a);
      }
    }
  }

  /** One write at a time; while it lasts the buffer holds its message, and no step rewrites it. */
  lemma BufferIsStable(run: seq<Action>, a: Action, send: nat)
    requires send in Exec(run).wire.writing
    ensures var w := Exec(run).wire;
      && w.writing == {send}
      && send < |w.sends|
      && w.buffer == Some(w.sends[send])
      && (send in Step(Exec(run), a).wire.writing ==> Step(Exec(run), a).wire.buffer == w.buffer)
  {
    ExecWire(run);
    ExecWire(run + [a]);
    assert (run + [a])[..|run|] == run;
    var w := Exec(run).wire;
    forall k | k in w.writing
      ensures k == send
    {
      assert k in w.semaphore.live && send in w.semaphore.live;
    }
  }

  /** Messages are written in the order in which they were sent, none skipped and none twice. */
  lemma WrittenInOrder(run: seq<Action>)
    ensures Exec(run).wire.written <= Exec(run).wire.sends
    ensures !Exec(run).wire.semaphore.hasActive ==> Exec(run).wire.written == Exec(run).wire.sends
  {
    ExecWire(run);
    var w := Exec(run).wire;
    if !w.semaphore.hasActive { assert w.semaphore.served == w.semaphore.served + w.semaphore.queue; }
  }

  /** Ids of messages sent are below the counter and no longer to be had. */
  predicate IdsUsed(s: State) {
    && (forall i :: 0 <= i < |s.wire.sends| ==> s.wire.sends[i].id < s.book.next && s.wire.sends[i].id !in s.book.drawn)
    && (forall i, j :: 0 <= i < j < |s.wire.sends| ==> s.wire.sends[i].id != s.wire.sends[j].id)
  }

  lemma {:induction false} FailAllCounter(b: Book, order: seq<Id>)
    ensures FailAll(b, order).next == b.next && FailAll(b, order).drawn == b.drawn
    decreases |order|
  {
    if order != [] { FailAllCounter(Finish(b, order[0], Failed), order[1..]); }
  }

  lemma StepIdsUsed(s: State, a: Action)
    requires IdsOk(s.book) && IdsUsed(s) && Enabled(s, a)
    ensures IdsUsed(Step(s, a))
  {
    match a
    case Invoke(_, id, content) => WireSends(s.wire, Message(id, Content(content)));
    case Cancel(id) => WireSends(s.wire, Message(s.book.next, CancelRequest(id)));
    case ReceiveEnded(order) => FailAllCounter(s.book, order);
    case _ =>
  }

  lemma {:induction false} ExecIdsUsed(run: seq<Action>)
    ensures IdsUsed(Exec(run))
  {
    if run != [] {
      ExecIdsUsed(run[..|run| - 1]);
      ExecAccounted(run[..|run| - 1], 0);
      if Enabled(Exec(run[..|run| - 1]), run[|run| - 1]) { StepIdsUsed(Exec(run[..|run| - 1]), run[|run| - 1]); }
    }
  }

  /** No two messages ever go out under one id, cancel requests included, and an id drawn is new. */
  lemma IdsAreUsedOnce(run: seq<Action>)
    ensures var sends := Exec(run).wire.sends; forall i, j :: 0 <= i < j < |sends| ==> sends[i].id != sends[j].id
    ensures var id, t := Exec(run).book.next, Step(Exec(run), DrawId);
      && id in t.book.drawn && id !in Exec(run).book.drawn && id !in t.book.responses
      && (forall i :: 0 <= i < |t.wire.sends| ==> t.wire.sends[i].id != id)
  {
    ExecIdsUsed(run);
    ExecAccounted(run, 0);
  }

  // ---------------------------------------------------------------- the semaphore and the writes

  /** What the client does with its semaphore: a request asks, the rest is what happens to permits. */
  function Permits(run: seq<Action>): seq<S.Action> {
    if run == [] then []
    else
      var n := |run| - 1;
      var before, a := Exec(run[..n]), run[n];
      Permits(run[..n]) +
        if !Enabled(before, a) then []
        else if |Requests(run)| > |Requests(run[..n])| then [S.GetPermit]
        else if a.RunGrant? then [S.RunPosted(a.index)]
        else if a.DropPermit? then [S.DropPermit(a.send)]
        else []
  }

  lemma PermitsSnoc(actions: seq<S.Action>, a: S.Action)
    ensures S.Exec(actions + [a]) == S.Step(S.Exec(actions), a)
  {
    assert (actions + [a])[..|actions|] == actions;
  }

  lemma StepSemaphore(s: State, a: Action)
    requires WireInv(s.wire) && Enabled(s, a)
    ensures var t := StepWire(s, a);
      t.semaphore ==
        if |t.sends| > |s.wire.sends| then S.Step(s.wire.semaphore, S.GetPermit)
        else match a
          case RunGrant(index) => S.Step(s.wire.semaphore, S.RunPosted(index))
          case DropPermit(send) => S.Step(s.wire.semaphore, S.DropPermit(send))
          case _ => s.wire.semaphore
  {
  }

  /** The semaphore of the client is one of module Semaphore, with every send a request and no destruction. */
  lemma {:induction false} SemaphoreIsUsed(run: seq<Action>)
    ensures Exec(run).wire.semaphore == S.Exec(Permits(run))
  {
    if run != [] {
      var n := |run| - 1;
      var before, a := Exec(run[..n]), run[n];
      SemaphoreIsUsed(run[..n]);
      assert Permits(run[..n]) + [] == Permits(run[..n]);
      if Enabled(before, a) {
        ExecWire(run[..n]);
        StepSemaphore(before, a);
        SendsAreRequests(run);
        SendsAreRequests(run[..n]);
        PermitsSnoc(Permits(run[..n]), S.GetPermit);
        if a.RunGrant? { PermitsSnoc(Permits(run[..n]), S.RunPosted(a.index)); }
        if a.DropPermit? { PermitsSnoc(Permits(run[..n]), S.DropPermit(a.send)); }
      }
    }
  }

  /** The write of send `k` has come back. */
  predicate WriteEnded(run: seq<Action>, k: nat) {
    run != [] &&
      var before, a := run[..|run| - 1], run[|run| - 1];
      WriteEnded(before, k) || (a.WriteDone? && a.send == k && Enabled(Exec(before), a))
  }

  /** A send that was let in is being written until its write comes back, and a permit outlives the write. */
  predicate WriteTold(w: Wire, k: nat, f: S.Fate, ended: bool) {
    && S.Told(w.semaphore, k, f)
    && (k in w.writing <==> S.LetIn(f) && !ended)
    && (k in w.writing ==> f.Holding?)
    && (ended ==> S.LetIn(f))
  }

  lemma SendWrites(w: Wire, message: Message, k: nat, f: S.Fate, ended: bool)
    requires WireInv(w) && WriteTold(w, k, f, ended)
    ensures WriteTold(WireSend(w, message), k, S.NextFate(f, k, w.semaphore, S.GetPermit), ended)
  {
    S.StepTold(w.semaphore, S.GetPermit, k, f);
  }

  lemma GrantWrites(w: Wire, index: nat, k: nat, f: S.Fate, ended: bool)
    requires WireInv(w) && WriteTold(w, k, f, ended)
    ensures WriteTold(WireGrant(w, index), k, S.NextFate(f, k, w.semaphore, S.RunPosted(index)), ended)
  {
    S.StepTold(w.semaphore, S.RunPosted(index), k, f);
    if index < |w.semaphore.posted| && w.semaphore.posted[index] == k { assert k in multiset(w.semaphore.posted); }
  }

  lemma DropWrites(w: Wire, send: nat, k: nat, f: S.Fate, ended: bool)
    requires WireInv(w) && WriteTold(w, k, f, ended) && send in w.semaphore.live && send !in w.writing
    ensures WriteTold(w.(semaphore := S.Step(w.semaphore, S.DropPermit(send))), k,
                      S.NextFate(f, k, w.semaphore, S.DropPermit(send)), ended)
  {
    S.StepTold(w.semaphore, S.DropPermit(send), k, f);
  }

  lemma StepWrites(s: State, a: Action, k: nat, f: S.Fate, ended: bool) returns (next: S.Fate)
    requires WireInv(s.wire) && Enabled(s, a) && WriteTold(s.wire, k, f, ended)
    ensures WriteTold(StepWire(s, a), k, next, ended || (a.WriteDone? && a.send == k))
  {
    next := f;
    match a
    case Invoke(_, id, content) =>
      if !s.book.disconnected {
        SendWrites(s.wire, Message(id, Content(content)), k, f, ended);
        next := S.NextFate(f, k, s.wire.semaphore, S.GetPermit);
      }
    case Cancel(id) =>
      if id in s.book.responses && !s.book.disconnected {
        SendWrites(s.wire, Message(s.book.next, CancelRequest(id)), k, f, ended);
        next := S.NextFate(f, k, s.wire.semaphore, S.GetPermit);
      }
    case RunGrant(index) =>
      GrantWrites(s.wire, index, k, f, ended);
      next := S.NextFate(f, k, s.wire.semaphore, S.RunPosted(index));
    case DropPermit(send) =>
      DropWrites(s.wire, send, k, f, ended);
      next := S.NextFate(f, k, s.wire.semaphore, S.DropPermit(send));
    case _ =>
  }

  lemma {:induction false} ExecWrites(run: seq<Action>, k: nat) returns (f: S.Fate)
    ensures WriteTold(Exec(run).wire, k, f, WriteEnded(run, k))
  {
    if run == [] {
      f := S.NotMade;
    } else {
      var n := |run| - 1;
      f := ExecWrites(run[..n], k);
      if Enabled(Exec(run[..n]), run[n]) {
        ExecWire(run[..n]);
        f := StepWrites(Exec(run[..n]), run[n], k, f, WriteEnded(run[..n], k));
      }
    }
  }

  /** A send is being written exactly while it holds the permit and its write has not come back. */
  lemma WritingIff(run: seq<Action>, k: nat)
    ensures k in Exec(run).wire.writing <==> k in Exec(run).wire.semaphore.live && !WriteEnded(run, k)
  {
    var f := ExecWrites(run, k);
  }

  /** The client is disconnected exactly if its receive job has ended. */
  lemma {:induction false} DisconnectedIff(run: seq<Action>)
    ensures Exec(run).book.disconnected <==>
      exists i :: 0 <= i < |run| && run[i].ReceiveEnded? && Enabled(Exec(run[..i]), run[i])
  {
    if run != [] {
      var n := |run| - 1;
      DisconnectedIff(run[..n]);
      assert forall i :: 0 <= i < n ==> run[..n][..i] == run[..i] && run[..n][i] == run[i];
      if Exec(run[..n]).book.disconnected {
        var i :| 0 <= i < n && run[..n][i].ReceiveEnded? && Enabled(Exec(run[..n][..i]), run[..n][i]);
        assert run[i].ReceiveEnded? && Enabled(Exec(run[..i]), run[i]);
      }
      StaysDisconnected(Exec(run[..n]), run[n]);
    }
  }

  lemma StaysDisconnected(s: State, a: Action)
    ensures Step(s, a).book.disconnected <==> s.book.disconnected || (a.ReceiveEnded? && Enabled(s, a))
  {
  }

  // ---------------------------------------------------------------- the client's state

  class ClientState {
    var responses: map<Id, Entry>
    var nextMessageId: Id
    var drawn: set<Id>
    var issued: map<Handler, Id>
    var completed: seq<Completion>
    var disconnected: bool

    const sendSemaphore: S.Shared
    var sends: seq<Message>
    var sendBuffer: Option<Message>
    var writing: set<nat>
    var written: seq<Message>

    ghost function Registry(): Book
      reads this
    {
      Book(responses, nextMessageId, drawn, issued, completed, disconnected)
    }

    ghost function Output(): Wire
      reads this, sendSemaphore
    {
      Wire(sendSemaphore.View(), sends, sendBuffer, writing, written)
    }

    ghost function View(): State
      reads this, sendSemaphore
    {
      State(Registry(), Output())
    }

    constructor ()
      ensures View() == INIT && fresh(sendSemaphore)
    {
      responses, nextMessageId, drawn, issued, completed, disconnected := map[], 0, {}, map[], [], false;
      sendSemaphore := new S.Shared();
      sends, sendBuffer, writing, written := [], None, {}, [];
    }

    method NextMessageId() returns (id: Id)
      modifies this
      ensures View() == Step(old(View()), DrawId) && id in drawn && id == old(nextMessageId)
    {
      id := nextMessageId;
      nextMessageId := nextMessageId + 1;
      drawn := drawn + {id};
    }

    /** Fills the buffer and starts the write, which reads the buffer until it is done. */
    method StartWrite(send: nat)
      requires send < |sends|
      modifies this`sendBuffer, this`writing, this`written
      ensures Output() == Prepare(old(Output()), send)
    {
      sendBuffer := Some(sends[send]);
      writing := writing + {send};
      written := written + [sends[send]];
    }

    method Send(message: Message)
      requires WireInv(Output())
      modifies this`sends, this`sendBuffer, this`writing, this`written, sendSemaphore
      ensures Output() == WireSend(old(Output()), message)
    {
      sends := sends + [message];
      var granted := sendSemaphore.GetPermit();
      if granted {
        StartWrite(|sends| - 1);
      }
    }

    method CallHandler(handler: Handler, outcome: Outcome)
      modifies this`completed
      ensures Registry() == Complete(old(Registry()), handler, outcome)
    {
      completed := completed + [Completion(handler, outcome)];
    }

    /** Takes the handler registered for `id` out, if any, and calls it. */
    method FinishRequest(id: Id, outcome: Outcome)
      modifies this`responses, this`completed
      ensures Registry() == Finish(old(Registry()), id, outcome)
    {
      if id in responses {
        var handler := responses[id].handler;
        responses := responses - {id};
        CallHandler(handler, outcome);
      }
    }

    method Invoke(handler: Handler, id: Id, content: nat)
      requires WireInv(Output()) && id in drawn && handler !in issued
      modifies this, sendSemaphore
      ensures View() == Step(old(View()), Action.Invoke(handler, id, content))
    {
      drawn := drawn - {id};
      issued := issued[handler := id];
      if disconnected {
        CallHandler(handler, Failed);
        return;
      }
      if id !in responses {
        responses := responses[id := Own(handler)];
      }
      Send(Message(id, Content(content)));
    }

    method CancelSlot(id: Id)
      requires WireInv(Output())
      modifies this, sendSemaphore
      ensures View() == Step(old(View()), Cancel(id))
    {
      if id !in responses { return; }
      var handler := responses[id].handler;
      responses := responses - {id};
      var cancelId := nextMessageId;
      nextMessageId := nextMessageId + 1;
      if disconnected {
        CallHandler(handler, Failed);
        return;
      }
      if cancelId !in responses {
        responses := responses[cancelId := CancelOf(handler)];
      }
      Send(Message(cancelId, CancelRequest(id)));
    }

    method OnResponse(id: Id, reply: Reply)
      requires !disconnected
      modifies this
      ensures View() == Step(old(View()), Arrive(id, reply))
    {
      if id in responses {
        FinishRequest(id, OutcomeOf(responses[id], id, reply));
      }
    }

    method OnPermit(index: nat)
      requires WireInv(Output()) && index < |sendSemaphore.posted|
      modifies this, sendSemaphore
      ensures View() == Step(old(View()), RunGrant(index))
    {
      var send := sendSemaphore.posted[index];
      var aborted := sendSemaphore.RunPosted(index);
      StartWrite(send);
    }

    method OnWritten(send: nat, success: bool)
      requires send in writing && send < |sends|
      modifies this
      ensures View() == Step(old(View()), WriteDone(send, success))
    {
      writing := writing - {send};
      if !success {
        FinishRequest(sends[send].id, Failed);
      }
    }

    method OnCallbackDestroyed(send: nat)
      requires send in sendSemaphore.live && send !in writing
      modifies sendSemaphore
      ensures View() == Step(old(View()), DropPermit(send))
    {
      sendSemaphore.OnPermitDestroyed(send);
    }

    /** The end of the receive job: whatever the order of the map, everything is failed. */
    method EndReceiveJob() returns (order: seq<Id>)
      requires !disconnected
      modifies this
      ensures View() == Step(old(View()), ReceiveEnded(order))
      ensures disconnected && responses == map[]
    {
      order := [];
      while responses != map[]
        invariant Registry() == FailAll(old(Registry()), order)
        invariant Output() == old(Output()) && !disconnected
        invariant forall id :: id in old(responses) && id !in responses ==> id in order
        decreases |responses|
      {
        var id :| id in responses;
        FailAllSnoc(old(Registry()), order, id);
        FinishRequest(id, Failed);
        order := order + [id];
      }
      disconnected := true;
    }
  }

  lemma {:induction false} FailAllSnoc(b: Book, order: seq<Id>, id: Id)
    ensures FailAll(b, order + [id]) == Finish(FailAll(b, order), id, Failed)
    decreases |order|
  {
    if order == [] {
      assert FailAll(Finish(b, id, Failed), ([id])[1..]) == Finish(b, id, Failed);
      assert order + [id] == [id];
    } else {
      assert (order + [id])[1..] == order[1..] + [id];
      FailAllSnoc(Finish(b, order[0], Failed), order[1..], id);
    }
  }
}
