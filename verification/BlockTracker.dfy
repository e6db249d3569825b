/**
 The worker that matches offered blocks with required ones (lib/src/block_tracker.rs).

 What a client was notified of is kept as a multiset per client: the order in which one command
 notifies several blocks follows a hash map and is left open.
 */
module BlockTracker {
  import opened Options

  type ClientId = nat
  type BlockId = nat

  datatype Mode = Lazy | Greedy
  datatype Offer = PendingOffer | Approved

  type Offers = map<BlockId, Offer>

  datatype Command =
    | InsertClient(client: ClientId)
    | RemoveClient(client: ClientId)
    | InsertOffer(client: ClientId, block: BlockId, offer: Offer)
    | ApproveOffers(block: BlockId)
    | SetRequestMode(mode: Mode)
    | InsertRequired(block: BlockId)
    | ClearRequired

  /** `sent` holds `(c, b)` once for every notification of block `b` to client `c`. */
  datatype State = State(clients: map<ClientId, Offers>, required: set<BlockId>, mode: Mode,
                         sent: multiset<(ClientId, BlockId)>)

  const INIT := State(map[], {}, Greedy, multiset{})

  function Count(s: State, c: ClientId, b: BlockId): nat { s.sent[(c, b)] }

  // ---------------------------------------------------------------- specification of a command

  /** A block that may be requested at once. */
  predicate Wanted(s: State, b: BlockId) { s.mode.Greedy? || b in s.required }

  predicate Takes(offers: Offers, b: BlockId, approvedOnly: bool) {
    b in offers && (approvedOnly ==> offers[b].Approved?)
  }

  /** What is left when the clients in `who` give up their offers of `b`. */
  function Accept(clients: map<ClientId, Offers>, who: set<ClientId>, b: BlockId, approvedOnly: bool): map<ClientId,
                  Offers> {
    map c | c in clients :: if c in who && Takes(clients[c], b, approvedOnly) then clients[c] - {b} else clients[c]
  }

  function Takers(clients: map<ClientId, Offers>, who: set<ClientId>, b: BlockId, approvedOnly: bool): set<(ClientId,
                  BlockId)> {
    set c | c in who && c in clients && Takes(clients[c], b, approvedOnly) :: (c, b)
  }

  /** The clients in `who` are notified of their offers of `b`, or of approved ones only, and the offers are dropped. */
  function AcceptIn(s: State, who: set<ClientId>, b: BlockId, approvedOnly: bool): State {
    s.(clients := Accept(s.clients, who, b, approvedOnly),
       sent := s.sent + multiset(Takers(s.clients, who, b, approvedOnly)))
  }

  function AcceptAll(s: State, b: BlockId, approvedOnly: bool): State {
    AcceptIn(s, s.clients.Keys, b, approvedOnly)
  }

  function With(offers: Offers, b: BlockId, offer: Offer): Offers { offers[b := offer] }

  function PendingIn(offers: Offers): Offers {
    map b | b in offers && offers[b].PendingOffer? :: offers[b]
  }

  /** What is left when the clients in `who` give up all approved offers. */
  function DropApproved(clients: map<ClientId, Offers>, who: set<ClientId>): map<ClientId, Offers> {
    map c | c in clients :: if c in who then PendingIn(clients[c]) else clients[c]
  }

  function ApprovedOf(clients: map<ClientId, Offers>, who: set<ClientId>): set<(ClientId, BlockId)> {
    set c, b | c in who && c in clients && b in clients[c] && clients[c][b].Approved? :: (c, b)
  }

  function Approve(clients: map<ClientId, Offers>, who: set<ClientId>, b: BlockId): map<ClientId, Offers> {
    map c | c in clients :: if c in who && b in clients[c] then With(clients[c], b, Approved) else clients[c]
  }

  function DoOffer(s: State, c: ClientId, b: BlockId, offer: Offer): State {
    if c !in s.clients then s
    else if offer.Approved? && Wanted(s, b) && (b in s.clients[c] ==> s.clients[c][b].PendingOffer?) then
      s.(clients := s.clients[c := s.clients[c] - {b}], sent := s.sent + multiset{(c, b)})
    else if b in s.clients[c] && (s.clients[c][b].Approved? || offer.PendingOffer?) then s
    else s.(clients := s.clients[c := With(s.clients[c], b, offer)])
  }

  function DoApprove(s: State, b: BlockId): State {
    if Wanted(s, b) then AcceptAll(s, b, false)
    else s.(clients := Approve(s.clients, s.clients.Keys, b))
  }

  function DoMode(s: State, mode: Mode): State {
    match mode
    case Lazy => s.(mode := Lazy)
    case Greedy =>
      State(DropApproved(s.clients, s.clients.Keys),
            {}, Greedy, s.sent + multiset(ApprovedOf(s.clients, s.clients.Keys)))
  }

  function DoRequire(s: State, b: BlockId): State {
    if b in s.required then s
    else AcceptAll(s, b, s.mode.Lazy?).(required := s.required + {b})
  }

  function Step(s: State, command: Command): State {
    match command
    case InsertClient(c) => s.(clients := s.clients[c := map[]])
    case RemoveClient(c) => s.(clients := s.clients - {c})
    case InsertOffer(c, b, offer) => DoOffer(s, c, b, offer)
    case ApproveOffers(b) => DoApprove(s, b)
    case SetRequestMode(mode) => DoMode(s, mode)
    case InsertRequired(b) => DoRequire(s, b)
    case ClearRequired => s.(required := {})
  }

  function Exec(s: State, run: seq<Command>): State {
    if run == [] then s else Step(Exec(s, run[..|run| - 1]), run[|run| - 1])
  }

  // ---------------------------------------------------------------- one client, one block

  /** All that concerns one client and one block. */
  datatype Cell = Cell(present: bool, offer: Option<Offer>, required: bool, mode: Mode, count: nat)

  function CellOf(s: State, c: ClientId, b: BlockId): Cell {
    Cell(c in s.clients, if c in s.clients && b in s.clients[c] then Some(s.clients[c][b]) else None,
         b in s.required, s.mode, Count(s, c, b))
  }

  function Fire(x: Cell): Cell { x.(offer := None, count := x.count + 1) }

  predicate CellWanted(x: Cell) { x.mode.Greedy? || x.required }

  /** The life of a single offer, as documented. */
  function CellStep(x: Cell, command: Command, c: ClientId, b: BlockId): Cell {
    match command
    case InsertClient(c') => if c' == c then x.(present := true, offer := None) else x
    case RemoveClient(c') => if c' == c then x.(present := false, offer := None) else x
    case InsertOffer(c', b', offer) =>
      if c' != c || b' != b || !x.present || x.offer == Some(Approved) then x
      else if offer.PendingOffer? then (if x.offer.None? then x.(offer := Some(PendingOffer)) else x)
      else if CellWanted(x) then Fire(x)
      else x.(offer := Some(Approved))
    case ApproveOffers(b') =>
      if b' != b || x.offer.None? then x else if CellWanted(x) then Fire(x) else x.(offer := Some(Approved))
    case SetRequestMode(mode) =>
      if mode.Lazy? then x.(mode := Lazy)
      else (if x.offer == Some(Approved) then Fire(x) else x).(mode := Greedy, required := false)
    case InsertRequired(b') =>
      if b' != b || x.required then x
      else if x.offer == Some(Approved) || (x.mode.Greedy? && x.offer.Some?) then Fire(x).(required := true)
      else x.(required := true)
    case ClearRequired => x.(required := false)
  }

  function CellExec(x: Cell, run: seq<Command>, c: ClientId, b: BlockId): Cell {
    if run == [] then x else CellStep(CellExec(x, run[..|run| - 1], c, b), run[|run| - 1], c, b)
  }

  lemma AcceptAllCell(s: State, b: BlockId, approvedOnly: bool, c: ClientId, b': BlockId)
    ensures var x, y := CellOf(s, c, b'), CellOf(AcceptAll(s, b, approvedOnly), c, b');
      y == if b' == b && (x.offer == Some(Approved) || (x.offer.Some? && !approvedOnly)) then Fire(x) else x
  {
  }

  lemma OfferCell(s: State, c': ClientId, b': BlockId, offer: Offer, c: ClientId, b: BlockId)
    ensures CellOf(DoOffer(s, c', b', offer), c, b) == CellStep(CellOf(s, c, b), InsertOffer(c', b', offer), c, b)
  {
    if c' != c || b' != b {
      assert CellOf(DoOffer(s, c', b', offer), c, b) == CellOf(s, c, b);
    }
  }

  lemma ApproveCell(s: State, b': BlockId, c: ClientId, b: BlockId)
    ensures CellOf(DoApprove(s, b'), c, b) == CellStep(CellOf(s, c, b), ApproveOffers(b'), c, b)
  {
    if Wanted(s, b') { AcceptAllCell(s, b', false, c, b); }
  }

  lemma RequireCell(s: State, b': BlockId, c: ClientId, b: BlockId)
    ensures CellOf(DoRequire(s, b'), c, b) == CellStep(CellOf(s, c, b), InsertRequired(b'), c, b)
  {
    if b' !in s.required {
      AcceptAllCell(s, b', s.mode.Lazy?, c, b);
    }
  }

  /** Every command acts on each cell by itself. */
  lemma StepCell(s: State, command: Command, c: ClientId, b: BlockId)
    ensures CellOf(Step(s, command), c, b) == CellStep(CellOf(s, c, b), command, c, b)
  {
    match command
    case InsertOffer(c', b', offer) => OfferCell(s, c', b', offer, c, b);
    case ApproveOffers(b') => ApproveCell(s, b', c, b);
    case InsertRequired(b') => RequireCell(s, b', c, b);
    case SetRequestMode(mode) => if mode.Greedy? { ModeCell(s, c, b); }
    case _ =>
  }

  lemma ModeCell(s: State, c: ClientId, b: BlockId)
    ensures CellOf(DoMode(s, Greedy), c, b) == CellStep(CellOf(s, c, b), SetRequestMode(Greedy), c, b)
  {
  }

  // ---------------------------------------------------------------- no wanted block is stranded

  /** An approved offer that is still stored is for a block nobody wants yet. */
  ghost predicate NotStranded(s: State) {
    forall c, b :: CellOk(CellOf(s, c, b))
  }

  predicate CellOk(x: Cell) {
    (x.offer == Some(Approved) ==> x.mode.Lazy? && !x.required) && (x.offer.Some? ==> x.present)
  }

  lemma StepNotStranded(s: State, command: Command)
    requires NotStranded(s)
    ensures NotStranded(Step(s, command))
  {
    forall c, b ensures CellOk(CellOf(Step(s, command), c, b)) {
      assert CellOk(CellOf(s, c, b));
      StepCell(s, command, c, b);
    }
  }

  lemma {:induction false} ExecNotStranded(run: seq<Command>)
    ensures NotStranded(Exec(INIT, run))
  {
    if run != [] {
      ExecNotStranded(run[..|run| - 1]);
      StepNotStranded(Exec(INIT, run[..|run| - 1]), run[|run| - 1]);
    }
  }

  /** In every reachable state a stored approved offer implies lazy mode and a block not required. */
  lemma NeverStranded(run: seq<Command>, c: ClientId, b: BlockId)
    requires var s := Exec(INIT, run); c in s.clients && b in s.clients[c] && s.clients[c][b].Approved?
    ensures Exec(INIT, run).mode.Lazy? && b !in Exec(INIT, run).required
  {
    ExecNotStranded(run);
    assert CellOk(CellOf(Exec(INIT, run), c, b));
  }

  /**
   Clients and blocks do not interfere: after any run, what concerns one client and one block is what
   the commands make of that cell alone.
   */
  lemma {:induction false} CellsAreIndependent(run: seq<Command>, c: ClientId, b: BlockId)
    ensures CellOf(Exec(INIT, run), c, b) == CellExec(CellOf(INIT, c, b), run, c, b)
  {
    if run != [] {
      var n := |run| - 1;
      CellsAreIndependent(run[..n], c, b);
      StepCell(Exec(INIT, run[..n]), run[n], c, b);
    }
  }

  // ---------------------------------------------------------------- what the commands leave standing

  /** The command is in the history, and nothing that ends it comes after. */
  predicate Stands(run: seq<Command>, command: Command, ends: set<Command>) {
    exists i :: 0 <= i < |run| && run[i] == command && forall j :: i < j < |run| ==> run[j] !in ends
  }

  lemma StandsSnoc(run: seq<Command>, last: Command, command: Command, ends: set<Command>)
    ensures Stands(run + [last], command, ends) <==> last == command || (Stands(run, command, ends) && last !in ends)
  {
    var longer := run + [last];
    assert longer[|run|] == last;
    assert forall i :: 0 <= i < |run| ==> longer[i] == run[i];
    if Stands(run, command, ends) && last !in ends {
      var i :| 0 <= i < |run| && run[i] == command && forall j :: i < j < |run| ==> run[j] !in ends;
      assert longer[i] == command;
    }
    if Stands(longer, command, ends) && last != command {
      var i :| 0 <= i < |longer| && longer[i] == command && forall j :: i < j < |longer| ==> longer[j] !in ends;
      assert i < |run| && run[i] == command && forall j :: i < j < |run| ==> longer[j] !in ends;
    }
  }

  /**
   After any run, a client is known if it was inserted and not removed since; a block is required if
   that was asked for and requirements have not been cleared since, which going greedy does too; and
   the mode is the last one set.
   */
  lemma {:induction false} StandingCommands(run: seq<Command>, c: ClientId, b: BlockId)
    ensures var s := Exec(INIT, run);
      && (c in s.clients <==> Stands(run, InsertClient(c), {RemoveClient(c)}))
      && (b in s.required <==>
            Stands(run, InsertRequired(b), {ClearRequired, SetRequestMode(Greedy)}))
      && (s.mode.Lazy? <==> Stands(run, SetRequestMode(Lazy), {SetRequestMode(Greedy)}))
  {
    if run != [] {
      var n := |run| - 1;
      var before, last := run[..n], run[n];
      StandingCommands(before, c, b);
      assert run == before + [last];
      StandsSnoc(before, last, InsertClient(c), {RemoveClient(c)});
      StandsSnoc(before, last, InsertRequired(b), {ClearRequired, SetRequestMode(Greedy)});
      StandsSnoc(before, last, SetRequestMode(Lazy), {SetRequestMode(Greedy)});
      StepStanding(Exec(INIT, before), last, c, b);
    }
  }

  lemma StepStanding(s: State, last: Command, c: ClientId, b: BlockId)
    ensures var t := Step(s, last);
      && (c in t.clients <==> last == InsertClient(c) || (c in s.clients && last != RemoveClient(c)))
      && (b in t.required <==>
            last == InsertRequired(b) || (b in s.required && !last.ClearRequired? && last != SetRequestMode(Greedy)))
      && (t.mode.Lazy? <==> last == SetRequestMode(Lazy) || (s.mode.Lazy? && last != SetRequestMode(Greedy)))
  {
  }

  // ---------------------------------------------------------------- order of offers, approvals and requirements

  /** The history holds an approved offer, or a pending one that was approved afterwards. */
  predicate Qualified(run: seq<Command>, c: ClientId, b: BlockId) {
    || InsertOffer(c, b, Approved) in run
    || exists i, j :: 0 <= i < j < |run| && run[i] == InsertOffer(c, b, PendingOffer) && run[j] == ApproveOffers(b)
  }

  predicate Offered(run: seq<Command>, c: ClientId, b: BlockId) {
    exists offer :: InsertOffer(c, b, offer) in run
  }

  /** Commands that neither leave lazy mode nor clear requirements nor touch the client itself. */
  predicate Steady(command: Command, c: ClientId) {
    command != SetRequestMode(Greedy) && !command.ClearRequired?
      && command != RemoveClient(c) && command != InsertClient(c)
  }

  lemma QualifiedSnoc(run: seq<Command>, command: Command, c: ClientId, b: BlockId)
    ensures Qualified(run + [command], c, b) <==>
      || Qualified(run, c, b) || command == InsertOffer(c, b, Approved)
      || (command == ApproveOffers(b) && Offered(run, c, b))
  {
    var longer := run + [command];
    assert forall i :: 0 <= i < |run| ==> longer[i] == run[i];
    if command == ApproveOffers(b) && Offered(run, c, b) && !Qualified(run, c, b) {
      var offer :| InsertOffer(c, b, offer) in run;
      assert offer.PendingOffer?;
      var i :| 0 <= i < |run| && run[i] == InsertOffer(c, b, offer);
      assert longer[i] == InsertOffer(c, b, PendingOffer) && longer[|run|] == ApproveOffers(b);
    }
    if i, j :| 0 <= i < j < |run| && run[i] == InsertOffer(c, b, PendingOffer) && run[j] == ApproveOffers(b) {
      assert longer[i] == run[i] && longer[j] == run[j];
    }
  }

  /** What a lazy history makes of a cell that starts without an offer. */
  predicate LazyCell(x0: Cell, x: Cell, run: seq<Command>, c: ClientId, b: BlockId) {
    && x.present && x.mode.Lazy?
    && x.required == (x0.required || InsertRequired(b) in run)
    && x.count >= x0.count
    && (x.count > x0.count <==> x.required && Qualified(run, c, b))
    && (x.offer == Some(Approved) ==> !x.required)
    && (Qualified(run, c, b) && !x.required ==> x.offer == Some(Approved))
    && (!Qualified(run, c, b) ==> x.offer == if Offered(run, c, b) then Some(PendingOffer) else None)
  }

  lemma {:induction false} LazyHistory(x0: Cell, run: seq<Command>, c: ClientId, b: BlockId)
    requires x0.present && x0.offer.None? && x0.mode.Lazy?
    requires forall i :: 0 <= i < |run| ==> Steady(run[i], c)
    ensures LazyCell(x0, CellExec(x0, run, c, b), run, c, b)
  {
    if run != [] {
      var n := |run| - 1;
      LazyHistory(x0, run[..n], c, b);
      assert run == run[..n] + [run[n]];
      QualifiedSnoc(run[..n], run[n], c, b);
      assert Offered(run, c, b) <==>
        Offered(run[..n], c, b) || (run[n].InsertOffer? && run[n].client == c && run[n].block == b);
      LazyStep(x0, CellExec(x0, run[..n], c, b), run[..n], run[n], c, b);
    }
  }

  lemma LazyStep(x0: Cell, x: Cell, run: seq<Command>, command: Command, c: ClientId, b: BlockId)
    requires LazyCell(x0, x, run, c, b) && Steady(command, c)
    requires Qualified(run + [command], c, b) <==>
      || Qualified(run, c, b) || command == InsertOffer(c, b, Approved)
      || (command == ApproveOffers(b) && Offered(run, c, b))
    requires Offered(run + [command], c, b) <==>
      Offered(run, c, b) || (command.InsertOffer? && command.client == c && command.block == b)
    ensures LazyCell(x0, CellStep(x, command, c, b), run + [command], c, b)
  {
    assert InsertRequired(b) in run + [command] <==> InsertRequired(b) in run || command == InsertRequired(b);
  }

  lemma {:induction false} CellExecConcat(x: Cell, pre: seq<Command>, post: seq<Command>, c: ClientId, b: BlockId)
    ensures CellExec(x, pre + post, c, b) == CellExec(CellExec(x, pre, c, b), post, c, b)
    decreases |post|
  {
    if post == [] {
      assert pre + post == pre;
    } else {
      var n := |post| - 1;
      assert (pre + post)[..|pre + post| - 1] == pre + post[..n];
      CellExecConcat(x, pre, post[..n], c, b);
    }
  }

  /**
   Order insensitivity. From the moment a client joins in lazy mode, and as long as the client stays,
   the mode stays lazy and requirements are not cleared, the client is notified of a block if and
   only if the block was required, before or after, and offered with approval, or offered and then
   approved, in whatever order these commands and those of other clients arrive.
   */
  lemma OrderInsensitive(before: seq<Command>, after: seq<Command>, c: ClientId, b: BlockId)
    requires Exec(INIT, before).mode.Lazy?
    requires forall i :: 0 <= i < |after| ==> Steady(after[i], c)
    ensures var joined := Exec(INIT, before + [InsertClient(c)]);
      var s := Exec(INIT, before + [InsertClient(c)] + after);
      Count(s, c, b) > Count(joined, c, b) <==>
        (b in joined.required || InsertRequired(b) in after) && Qualified(after, c, b)
  {
    var pre := before + [InsertClient(c)];
    assert pre[..|before|] == before;
    CellsAreIndependent(pre, c, b);
    CellsAreIndependent(pre + after, c, b);
    CellExecConcat(CellOf(INIT, c, b), pre, after, c, b);
    LazyHistory(CellOf(Exec(INIT, pre), c, b), after, c, b);
  }

  // ---------------------------------------------------------------- accounting

  function OffersReceived(run: seq<Command>, c: ClientId, b: BlockId): nat {
    if run == [] then 0
    else
      var last := run[|run| - 1];
      OffersReceived(run[..|run| - 1], c, b) + if last.InsertOffer? && last.client == c && last.block == b then 1 else 0
  }

  /** Per client and block, notifications sent plus the offer held never exceed the offers received. */
  lemma NotificationsAccounted(run: seq<Command>, c: ClientId, b: BlockId)
    ensures var s := Exec(INIT, run);
      Count(s, c, b) + (if c in s.clients && b in s.clients[c] then 1 else 0) <= OffersReceived(run, c, b)
  {
    CellsAreIndependent(run, c, b);
    CellAccounted(run, c, b);
  }

  lemma {:induction false} CellAccounted(run: seq<Command>, c: ClientId, b: BlockId)
    ensures var x := CellExec(CellOf(INIT, c, b), run, c, b);
      x.count + (if x.offer.Some? then 1 else 0) <= OffersReceived(run, c, b)
  {
    if run != [] { CellAccounted(run[..|run| - 1], c, b); }
  }

  /** The commands since the offer was last consumed: since a notification, or since the client came or went. */
  function Since(run: seq<Command>, c: ClientId, b: BlockId): seq<Command> {
    if run == [] then []
    else
      var before, last := run[..|run| - 1], run[|run| - 1];
      if last == InsertClient(c) || last == RemoveClient(c)
         || Count(Exec(INIT, run), c, b) > Count(Exec(INIT, before), c, b) then []
      else Since(before, c, b) + [last]
  }

  /** What is held for a client is what it has offered since, approved exactly if that was approved since. */
  predicate History(x: Cell, since: seq<Command>, c: ClientId, b: BlockId) {
    && (!x.present ==> x.offer.None?)
    && (x.present ==> (x.offer.Some? <==> Offered(since, c, b)))
    && (x.present ==> (x.offer == Some(Approved) <==> Qualified(since, c, b)))
    && (x.offer == Some(Approved) ==> !CellWanted(x))
  }

  /** A new requirement in greedy mode takes a pending offer as it is. */
  predicate TakesPending(x: Cell, command: Command, b: BlockId) {
    command == InsertRequired(b) && x.mode.Greedy? && !x.required && x.offer.Some? && x.offer.value.PendingOffer?
  }

  lemma OfferedSnoc(run: seq<Command>, command: Command, c: ClientId, b: BlockId)
    ensures Offered(run + [command], c, b) <==>
      Offered(run, c, b) || (command.InsertOffer? && command.client == c && command.block == b)
  {
    if Offered(run, c, b) {
      var offer :| InsertOffer(c, b, offer) in run;
      assert InsertOffer(c, b, offer) in run + [command];
    }
    if command.InsertOffer? && command.client == c && command.block == b {
      assert InsertOffer(c, b, command.offer) in run + [command];
    }
  }

  lemma NotifyStep(x: Cell, since: seq<Command>, command: Command, c: ClientId, b: BlockId)
    requires History(x, since, c, b)
    ensures var y := CellStep(x, command, c, b);
      y.count == x.count + (if x.present &&
        ((CellWanted(y) && Qualified(since + [command], c, b)) || TakesPending(x, command, b)) then 1 else 0)
  {
    QualifiedSnoc(since, command, c, b);
    match command
    case InsertOffer(c', b', offer) =>
    case ApproveOffers(b') =>
    case SetRequestMode(mode) =>
    case InsertRequired(b') =>
    case _ =>
  }

  lemma HistoryStep(x: Cell, since: seq<Command>, command: Command, c: ClientId, b: BlockId)
    requires History(x, since, c, b)
    ensures var y := CellStep(x, command, c, b);
      var consumed := command == InsertClient(c) || command == RemoveClient(c) || y.count > x.count;
      History(y, if consumed then [] else since + [command], c, b)
  {
    QualifiedSnoc(since, command, c, b);
    OfferedSnoc(since, command, c, b);
  }

  lemma {:induction false} HistoryHolds(run: seq<Command>, c: ClientId, b: BlockId)
    ensures History(CellOf(Exec(INIT, run), c, b), Since(run, c, b), c, b)
  {
    if run != [] {
      var before, last := run[..|run| - 1], run[|run| - 1];
      HistoryHolds(before, c, b);
      StepCell(Exec(INIT, before), last, c, b);
      HistoryStep(CellOf(Exec(INIT, before), c, b), Since(before, c, b), last, c, b);
    }
  }

  /**
   Each notification on its own: a command notifies a present client of a block, once, if and only if
   the block is wanted after it and an offer was made and approved since the last one was consumed, or
   it is a new requirement in greedy mode, which also takes a pending offer.
   */
  lemma NotifiedMeansApproved(run: seq<Command>, command: Command, c: ClientId, b: BlockId)
    ensures var s := Exec(INIT, run);
      var x, y := CellOf(s, c, b), CellOf(Step(s, command), c, b);
      Count(Step(s, command), c, b) == Count(s, c, b) + (if x.present &&
        ((CellWanted(y) && Qualified(Since(run, c, b) + [command], c, b)) || TakesPending(x, command, b)) then 1 else 0)
  {
    HistoryHolds(run, c, b);
    StepCell(Exec(INIT, run), command, c, b);
    NotifyStep(CellOf(Exec(INIT, run), c, b), Since(run, c, b), command, c, b);
  }

  /** A block notified without any approval. */
  lemma GreedyRequireNotifies(c: ClientId, b: BlockId)
    ensures var run := [InsertClient(c), InsertOffer(c, b, PendingOffer), InsertRequired(b)];
      Count(Exec(INIT, run), c, b) == 1 && !Qualified(run, c, b)
  {
    var run := [InsertClient(c), InsertOffer(c, b, PendingOffer), InsertRequired(b)];
    CellsAreIndependent(run, c, b);
    assert run[..2][..1] == run[..1] && run[..1][..0] == [];
    var x := CellOf(INIT, c, b);
    assert CellExec(x, run[..1], c, b) == x.(present := true);
    assert CellExec(x, run[..2], c, b) == x.(present := true, offer := Some(PendingOffer));
  }

  /** The exception is real, and it is exactly the branch of a new requirement in greedy mode. */
  lemma GreedyRequireTakesPending(s: State, command: Command, c: ClientId, b: BlockId)
    requires CellOf(s, c, b).offer == Some(PendingOffer)
    ensures Count(Step(s, command), c, b) > Count(s, c, b)
         && command != ApproveOffers(b) && command != InsertOffer(c, b, Approved)
      <==> command == InsertRequired(b) && s.mode.Greedy? && b !in s.required
  {
    StepCell(s, command, c, b);
  }

  /** A removed client is never notified again, until it is inserted anew. */
  lemma RemovedIsSilent(before: seq<Command>, after: seq<Command>, c: ClientId, b: BlockId)
    requires InsertClient(c) !in after
    ensures Count(Exec(INIT, before + [RemoveClient(c)] + after), c, b) == Count(Exec(INIT, before), c, b)
  {
    var pre := before + [RemoveClient(c)];
    assert pre[..|before|] == before;
    CellsAreIndependent(before, c, b);
    CellsAreIndependent(pre, c, b);
    CellsAreIndependent(pre + after, c, b);
    CellExecConcat(CellOf(INIT, c, b), pre, after, c, b);
    AbsentIsSilent(CellOf(Exec(INIT, pre), c, b), after, c, b);
  }

  lemma {:induction false} AbsentIsSilent(x: Cell, run: seq<Command>, c: ClientId, b: BlockId)
    requires !x.present && x.offer.None? && InsertClient(c) !in run
    ensures var y := CellExec(x, run, c, b); !y.present && y.offer.None? && y.count == x.count
  {
    if run != [] { AbsentIsSilent(x, run[..|run| - 1], c, b); }
  }

  // ---------------------------------------------------------------- the worker

  lemma AcceptNone(clients: map<ClientId, Offers>, b: BlockId, approvedOnly: bool)
    ensures Accept(clients, {}, b, approvedOnly) == clients && Takers(clients, {}, b, approvedOnly) == {}
  {
  }

  function AcceptOne(s: State, c: ClientId, b: BlockId, approvedOnly: bool): State
    requires c in s.clients
  {
    if Takes(s.clients[c], b, approvedOnly) then
      s.(clients := s.clients[c := s.clients[c] - {b}], sent := s.sent + multiset{(c, b)})
    else s
  }

  lemma TakersOneMore(clients: map<ClientId, Offers>, who: set<ClientId>, c: ClientId, b: BlockId, approvedOnly: bool)
    requires c in clients && c !in who
    ensures multiset(Takers(clients, who + {c}, b, approvedOnly)) ==
      multiset(Takers(clients, who, b, approvedOnly)) +
        if Takes(clients[c], b, approvedOnly) then multiset{(c, b)} else multiset{}
  {
    var before := Takers(clients, who, b, approvedOnly);
    assert Takers(clients, who + {c}, b, approvedOnly) ==
      before + if Takes(clients[c], b, approvedOnly) then {(c, b)} else {};
    assert (c, b) !in before;
  }

  lemma ClientsOneMore(clients: map<ClientId, Offers>, who: set<ClientId>, c: ClientId, b: BlockId, approvedOnly: bool)
    requires c in clients && c !in who
    ensures Accept(clients, who, b, approvedOnly)[c] == clients[c]
    ensures Accept(clients, who + {c}, b, approvedOnly) ==
      if Takes(clients[c], b, approvedOnly) then Accept(clients, who, b, approvedOnly)[c := clients[c] - {b}]
      else Accept(clients, who, b, approvedOnly)
  {
  }

  lemma AcceptOneMore(s: State, who: set<ClientId>, c: ClientId, b: BlockId, approvedOnly: bool)
    requires c in s.clients && c !in who
    ensures AcceptIn(s, who + {c}, b, approvedOnly) == AcceptOne(AcceptIn(s, who, b, approvedOnly), c, b, approvedOnly)
  {
    TakersOneMore(s.clients, who, c, b, approvedOnly);
    ClientsOneMore(s.clients, who, c, b, approvedOnly);
  }

  lemma DropOneMore(clients: map<ClientId, Offers>, who: set<ClientId>, c: ClientId)
    requires c in clients && c !in who
    ensures DropApproved(clients, who + {c}) == DropApproved(clients, who)[c := PendingIn(clients[c])]
    ensures multiset(ApprovedOf(clients, who + {c})) ==
      multiset(ApprovedOf(clients, who)) + multiset(ApprovedOf(clients, {c}))
  {
    var before, one := ApprovedOf(clients, who), ApprovedOf(clients, {c});
    assert ApprovedOf(clients, who + {c}) == before + one;
    assert before !! one;
  }

  lemma SameApproved(before: map<ClientId, Offers>, clients: map<ClientId, Offers>, c: ClientId)
    requires c in before && c in clients && clients[c] == before[c]
    ensures ApprovedOf(clients, {c}) == ApprovedOf(before, {c})
  {
  }

  /** The worker. `sent` records what went into the clients' channels. */
  class Worker {
    var clients: map<ClientId, Offers>
    var requiredBlocks: set<BlockId>
    var requestMode: Mode
    var sent: multiset<(ClientId, BlockId)>

    ghost function View(): State
      reads this
    {
      State(clients, requiredBlocks, requestMode, sent)
    }

    constructor ()
      ensures View() == INIT
    {
      clients, requiredBlocks, requestMode, sent := map[], {}, Greedy, multiset{};
    }

    method HandleCommand(command: Command)
      modifies this
      ensures View() == Step(old(View()), command)
    {
      match command {
        case InsertClient(c) => clients := clients[c := map[]];
        case RemoveClient(c) => clients := clients - {c};
        case InsertOffer(c, b, offer) => HandleOffer(c, b, offer);
        case ApproveOffers(b) => HandleApprove(b);
        case SetRequestMode(mode) => ChangeMode(mode);
        case InsertRequired(b) => Require(b);
        case ClearRequired => requiredBlocks := {};
      }
    }

    method HandleOffer(c: ClientId, b: BlockId, offer: Offer)
      modifies this
      ensures View() == DoOffer(old(View()), c, b, offer)
    {
      if c !in clients { return; }
      var offers := clients[c];
      if b in offers {
        if offers[b].PendingOffer? && offer.Approved? {
          if requestMode.Greedy? || b in requiredBlocks {
            clients := clients[c := offers - {b}];
            sent := sent + multiset{(c, b)};
          } else {
            clients := clients[c := With(offers, b, Approved)];
          }
        }
      } else {
        match offer {
          case PendingOffer => clients := clients[c := With(offers, b, PendingOffer)];
          case Approved =>
            if requestMode.Greedy? || b in requiredBlocks {
              assert offers - {b} == offers && clients[c := offers - {b}] == clients;
              sent := sent + multiset{(c, b)};
            } else {
              clients := clients[c := With(offers, b, Approved)];
            }
        }
      }
    }

    /** Every client in turn accepts its offer of `b`, or only an approved one. */
    method AcceptEverywhere(b: BlockId, approvedOnly: bool)
      modifies this`clients, this`sent
      ensures View() == AcceptAll(old(View()), b, approvedOnly)
    {
      ghost var before := View();
      AcceptNone(before.clients, b, approvedOnly);
      ghost var all := clients.Keys;
      var rest := clients.Keys;
      assert all - rest == {};
      while rest != {}
        invariant rest <= all == before.clients.Keys
        invariant View() == AcceptIn(before, all - rest, b, approvedOnly)
        decreases rest
      {
        var c :| c in rest;
        AcceptOneMore(before, all - rest, c, b, approvedOnly);
        assert all - rest + {c} == all - (rest - {c});
        AcceptAt(c, b, approvedOnly);
        rest := rest - {c};
      }
      assert all - rest == all;
    }

    /** `accept`, or `accept_if_approved`. */
    method AcceptAt(c: ClientId, b: BlockId, approvedOnly: bool)
      requires c in clients
      modifies this`clients, this`sent
      ensures View() == AcceptOne(old(View()), c, b, approvedOnly)
    {
      if b in clients[c] && (!approvedOnly || clients[c][b].Approved?) {
        clients := clients[c := clients[c] - {b}];
        sent := sent + multiset{(c, b)};
      }
    }

    method HandleApprove(b: BlockId)
      modifies this
      ensures View() == DoApprove(old(View()), b)
    {
      if requestMode.Greedy? || b in requiredBlocks {
        AcceptEverywhere(b, false);
      } else {
        ApproveEverywhere(b);
      }
    }

    method ApproveEverywhere(b: BlockId)
      modifies this`clients
      ensures clients == Approve(old(clients), old(clients).Keys, b)
    {
      ghost var before := clients;
      var who, rest := {}, clients.Keys;
      assert Approve(before, {}, b) == before;
      while rest != {}
        invariant who + rest == before.Keys && who !! rest
        invariant clients == Approve(before, who, b)
        decreases rest
      {
        var c :| c in rest;
        assert clients[c] == before[c];
        if b in clients[c] { clients := clients[c := With(clients[c], b, Approved)]; }
        who, rest := who + {c}, rest - {c};
        assert clients == Approve(before, who, b);
      }
      assert who == before.Keys;
    }

    method ChangeMode(mode: Mode)
      modifies this
      ensures View() == DoMode(old(View()), mode)
    {
      requestMode := mode;
      if mode.Greedy? {
        AcceptAllApproved();
        requiredBlocks := {};
      }
    }

    method AcceptAllApproved()
      modifies this`clients, this`sent
      ensures clients == DropApproved(old(clients), old(clients).Keys)
      ensures sent == old(sent) + multiset(ApprovedOf(old(clients), old(clients).Keys))
    {
      ghost var before, sentBefore, all := clients, sent, clients.Keys;
      var rest := clients.Keys;
      assert all - rest == {} && DropApproved(before, {}) == before && ApprovedOf(before, {}) == {};
      while rest != {}
        invariant rest <= all == before.Keys
        invariant clients == DropApproved(before, all - rest)
        invariant sent == sentBefore + multiset(ApprovedOf(before, all - rest))
        decreases rest
      {
        var c :| c in rest;
        DropOneMore(before, all - rest, c);
        assert all - rest + {c} == all - (rest - {c});
        SameApproved(before, clients, c);
        sent := sent + multiset(ApprovedOf(clients, {c}));
        clients := clients[c := PendingIn(clients[c])];
        rest := rest - {c};
      }
      assert all - rest == all;
    }

    method Require(b: BlockId)
      modifies this
      ensures View() == DoRequire(old(View()), b)
    {
      if b in requiredBlocks { return; }
      requiredBlocks := requiredBlocks + {b};
      AcceptEverywhere(b, requestMode.Lazy?);
    }
  }
}
