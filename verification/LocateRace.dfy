/**
 `StateMonitor::locate` running beside other operations (state_monitor/src/lib.rs:213-218, 346-362,
 389-399).

 The call locks one map of children at a time. It holds an `Arc` to the node it stands at, which no
 parent counts, and counts itself only at the end. In between other threads can do anything but
 drop the handle it was called on.
 */
module LocateRace {
  import opened Options
  import opened StateMonitor

  datatype RaceOp =
    | Atomic(op: Op)
    | Begin(on: nat, ticket: nat)
    | Level(ticket: nat, id: MonitorId)   // one level down, or no result
    | Complete(ticket: nat, h: nat)       // `increment_refcount`, and the handle

  predicate Borrowed(finds: map<nat, Cursor>, h: nat) {
    exists t :: t in finds && finds[t].from == h
  }

  predicate RaceEnabled(x: Race, a: RaceOp) {
    match a
    case Atomic(op) => Enabled(x.tree, op) && (op.Drop? ==> !Borrowed(x.finds, op.on))
    case Begin(on, ticket) => User(on) in x.tree.refs && ticket !in x.finds
    case Level(ticket, _) => ticket in x.finds
    case Complete(ticket, h) => ticket in x.finds && User(h) !in x.tree.refs
  }

  /** The call begins at the node of its handle. */
  function BeginAt(x: Race, on: nat, ticket: nat): Race
    requires RaceInv(x) && User(on) in x.tree.refs
  {
    var n := x.tree.refs[User(on)];
    x.(finds := x.finds[ticket := Cursor(on, n, x.tree.nodes[n])])
  }

  /** `None` when the step panics. */
  function RaceStep(x: Race, a: RaceOp): Option<Race>
    requires RaceInv(x)
  {
    if !RaceEnabled(x, a) then Some(x) else
    match a
    case Atomic(op) => Some(x.(tree := Step(x.tree, HeldIn(x.finds), op)))
    case Begin(on, ticket) => Some(BeginAt(x, on, ticket))
    case Level(ticket, id) => Some(Descend(x, ticket, id))
    case Complete(ticket, h) => Finish(x, ticket, h)
  }

  lemma LocateOne(s: Tree, n: nat, id: MonitorId)
    ensures Locate(s, n, [id]) == if Key(n, id) in s.children then Some(s.children[Key(n, id)].node) else None
  {
    assert [id][1..] == [];
  }

  /** One level leads to the child that `Locate` finds, or ends the call. */
  lemma LevelReturns(x: Race, ticket: nat, id: MonitorId)
    requires RaceInv(x) && ticket in x.finds
    ensures var y := Descend(x, ticket, id);
      match Locate(x.tree, x.finds[ticket].node, [id])
      case Some(n) => y.tree == x.tree && y.finds.Keys == x.finds.Keys && y.finds[ticket].node == n
      case None => y.finds == x.finds - {ticket}
  {
    LocateOne(x.tree, x.finds[ticket].node, id);
  }

  lemma BeginReturns(x: Race, on: nat, ticket: nat)
    requires RaceInv(x) && User(on) in x.tree.refs
    ensures var y := BeginAt(x, on, ticket);
      y.tree == x.tree && ticket in y.finds && y.finds[ticket].node == x.tree.refs[User(on)]
  {
  }

  /** The handle returned is for the node that the call has reached. */
  lemma FinishReturns(x: Race, ticket: nat, h: nat)
    requires ticket in x.finds && Finish(x, ticket, h).Some?
    ensures var y := Finish(x, ticket, h).value;
      y.finds == x.finds - {ticket} && User(h) in y.tree.refs && y.tree.refs[User(h)] == x.finds[ticket].node
  {
  }

  // ---------------------------------------------------------------- what other operations leave alone

  /** Nodes are immutable and never come back, and what is held keeps its parent field. */
  ghost predicate Kept(s: Tree, t: Tree, held: set<nat>) {
    && s.next <= t.next
    && (forall n :: n in t.nodes && n < s.next ==> n in s.nodes && t.nodes[n] == s.nodes[n])
    && (forall d :: d in held && ParentField(d) in s.refs ==>
          ParentField(d) in t.refs && t.refs[ParentField(d)] == s.refs[ParentField(d)])
  }

  lemma ReleaseKept(s: Tree, held: set<nat>, r: Ref)
    requires Droppable(s, held, r)
    ensures Kept(s, Release(s, held, r), held)
    ensures forall h :: User(h) in s.refs && User(h) != r ==> User(h) in Release(s, held, r).refs
  {
    ReleaseFrame(s, held, r);
  }

  lemma MakeChildKept(s: Tree, held: set<nat>, p: nat, id: MonitorId, h: nat)
    requires HasEntry(s, p) && (Key(p, id) in s.children ==> HasEntry(s, s.children[Key(p, id)].node))
    requires ParentField(s.next) !in s.refs
    ensures Kept(s, MakeChild(s, p, id, h), held)
    ensures forall r :: r in s.refs ==> r in MakeChild(s, p, id, h).refs
  {
  }

  lemma GrowKept(s: Tree, held: set<nat>, p: nat, id: MonitorId, h: nat)
    requires Inv(s, Gone(s, held)) && p in s.nodes && User(h) !in s.refs
    ensures Kept(s, Grow(s, held, p, id, h), held)
    ensures forall r :: r in s.refs ==> r in Grow(s, held, p, id, h).refs
  {
    MakeChildInv(s, Gone(s, held), p, id, h);
    ReserveFresh(s, Gone(s, held));
    MakeChildKept(s, held, p, id, h);
  }

  lemma AddRefKept(s: Tree, held: set<nat>, r: Ref, n: nat)
    requires HasEntry(s, n) && !r.ParentField?
    ensures Kept(s, AddRef(s, r, n), held)
    ensures forall q :: q in s.refs ==> q in AddRef(s, r, n).refs
  {
  }

  lemma BorrowKept(s: Tree, held: set<nat>, n: nat, h: nat)
    requires Inv(s, Gone(s, held)) && n in s.nodes && User(h) !in s.refs
    ensures Kept(s, Borrow(s, held, n, h), held)
    ensures forall q :: q in s.refs ==> q in Borrow(s, held, n, h).refs
  {
    EntryExists(s, Gone(s, held), n);
    AddRefKept(s, held, User(h), n);
  }

  lemma KeepValueKept(s: Tree, held: set<nat>, v: nat, slot: Slot)
    requires Inv(s, Gone(s, held)) && slot.node in s.nodes && v !in s.vals && OfValue(v) !in s.refs
    ensures Kept(s, KeepValue(s, held, v, slot), held)
    ensures forall q :: q in s.refs ==> q in KeepValue(s, held, v, slot).refs
  {
    EntryExists(s, Gone(s, held), slot.node);
    AddRefKept(s, held, OfValue(v), slot.node);
  }

  lemma LocateKept(s: Tree, held: set<nat>, on: nat, path: seq<MonitorId>, h: nat)
    requires Inv(s, Gone(s, held)) && 0 !in held && Enabled(s, LocateFrom(on, path, h))
    ensures Kept(s, Step(s, held, LocateFrom(on, path, h)), held)
    ensures forall q :: q in s.refs ==> q in Step(s, held, LocateFrom(on, path, h)).refs
  {
    LocateLive(s, s.refs[User(on)], path);
    var found := Locate(s, s.refs[User(on)], path);
    if found.Some? { BorrowKept(s, held, found.value, h); }
  }

  lemma DropKept(s: Tree, held: set<nat>, on: nat)
    requires Inv(s, Gone(s, held)) && 0 !in held && User(on) in s.refs
    ensures Kept(s, Step(s, held, Drop(on)), held)
    ensures forall h :: User(h) in s.refs && h != on ==> User(h) in Step(s, held, Drop(on)).refs
  {
    assert Gone(s, held) + {} == Gone(s, held);
    ReleaseKept(s, held, User(on));
  }

  lemma DiscardKept(s: Tree, held: set<nat>, v: nat)
    requires Inv(s, Gone(s, held)) && 0 !in held && v in s.vals
    ensures Kept(s, DiscardValue(s, held, v), held)
    ensures forall h :: User(h) in s.refs ==> User(h) in DiscardValue(s, held, v).refs
  {
    RemoveValueInv(s, held, v);
    ReleaseKept(RemoveValue(s, v), held, OfValue(v));
  }

  lemma StepKept(s: Tree, held: set<nat>, op: Op)
    requires Inv(s, Gone(s, held)) && 0 !in held && Enabled(s, op)
    ensures Kept(s, Step(s, held, op), held)
    ensures forall h :: User(h) in s.refs && op != Drop(h) ==> User(h) in Step(s, held, op).refs
  {
    match op
    case MakeChildOf(on, id, h) => GrowKept(s, held, s.refs[User(on)], id, h);
    case Clone(on, h) => BorrowKept(s, held, s.refs[User(on)], h);
    case LocateFrom(on, path, h) => LocateKept(s, held, on, path, h);
    case Drop(on) => DropKept(s, held, on);
    case MakeValue(on, name, v) => KeepValueKept(s, held, v, Slot(s.refs[User(on)], name));
    case CloneValue(v, copy) => KeepValueKept(s, held, copy, s.vals[v]);
    case DropValue(v) => DiscardKept(s, held, v);
  }

  /** The root is there as long as anything is. */
  lemma RootIsLive(s: Tree, gone: set<nat>, r: Ref)
    requires ShapeOk(s) && RefsOk(s, gone) && r in s.refs
    ensures 0 in s.nodes
  {
    LocatePathTo(s, s.refs[r]);
  }

  lemma CursorKept(s: Tree, t: Tree, held: set<nat>, gone: set<nat>, c: Cursor)
    requires CursorOk(s, c) && Kept(s, t, held) && (c.record.parent.Some? ==> c.node in held)
    requires ShapeOk(t) && RefsOk(t, gone) && User(c.from) in t.refs
    ensures CursorOk(t, c)
  {
    RootIsLive(t, gone, User(c.from));
  }

  lemma CursorsKept(s: Tree, t: Tree, held: set<nat>, finds: map<nat, Cursor>)
    requires forall k :: k in finds ==> CursorOk(s, finds[k])
    requires held == HeldIn(finds) && Kept(s, t, held)
    requires ShapeOk(t) && RefsOk(t, Gone(t, held))
    requires forall k :: k in finds ==> User(finds[k].from) in t.refs
    ensures forall k :: k in finds ==> CursorOk(t, finds[k])
  {
    forall k | k in finds ensures CursorOk(t, finds[k]) {
      assert finds[k].record.parent.Some? ==> finds[k].node in held;
      CursorKept(s, t, held, Gone(t, held), finds[k]);
    }
  }

  // ---------------------------------------------------------------- every step but the last

  lemma StepCursors(s: Tree, held: set<nat>, op: Op, finds: map<nat, Cursor>)
    requires Inv(s, Gone(s, held)) && 0 !in held && Enabled(s, op) && held == HeldIn(finds)
    requires forall k :: k in finds ==> CursorOk(s, finds[k]) && op != Drop(finds[k].from)
    ensures forall k :: k in finds ==> CursorOk(Step(s, held, op), finds[k])
  {
    var t := Step(s, held, op);
    assert Kept(s, t, held) && forall k :: k in finds ==> User(finds[k].from) in t.refs by { StepKept(s, held, op); }
    CursorsKept(s, t, held, finds);
  }

  lemma AtomicKeeps(x: Race, op: Op)
    requires RaceInv(x) && RaceEnabled(x, Atomic(op))
    ensures RaceInv(x.(tree := Step(x.tree, HeldIn(x.finds), op)))
  {
    StepCursors(x.tree, HeldIn(x.finds), op, x.finds);
  }

  lemma HeldWith(finds: map<nat, Cursor>, ticket: nat, c: Cursor)
    ensures HeldIn(finds[ticket := c]) == HeldIn(finds - {ticket}) + if c.record.parent.Some? then {c.node} else {}
  {
    var more := finds[ticket := c];
    HeldWithout(more, ticket);
    assert more - {ticket} == finds - {ticket};
  }

  lemma PointGone(s: Tree, finds: map<nat, Cursor>, more: map<nat, Cursor>, ticket: nat, c: Cursor)
    requires more == finds[ticket := c] && c.node in s.nodes && (ticket in finds ==> finds[ticket].node in s.nodes)
    requires 0 !in HeldIn(finds) && (c.record.parent.Some? ==> c.node != 0)
    ensures Gone(s, HeldIn(finds)) == Gone(s, HeldIn(more)) && 0 !in HeldIn(more)
  {
    HeldWith(finds, ticket, c);
    if ticket in finds { HeldWithout(finds, ticket); } else { assert finds - {ticket} == finds; }
  }

  lemma PointCursors(s: Tree, finds: map<nat, Cursor>, more: map<nat, Cursor>, ticket: nat, c: Cursor)
    requires CursorOk(s, c) && more == finds[ticket := c] && forall k :: k in finds ==> CursorOk(s, finds[k])
    ensures forall k :: k in more ==> CursorOk(s, more[k])
  {
  }

  lemma RaceFrom(s: Tree, finds: map<nat, Cursor>, gone: set<nat>)
    requires Inv(s, gone) && gone == Gone(s, HeldIn(finds)) && 0 !in HeldIn(finds)
    requires forall k :: k in finds ==> CursorOk(s, finds[k])
    ensures RaceInv(Race(s, finds))
  {
  }

  /** A live node may be pointed at. */
  lemma PointKeeps(x: Race, more: map<nat, Cursor>, ticket: nat, c: Cursor)
    requires RaceInv(x) && CursorOk(x.tree, c) && c.node in x.tree.nodes && more == x.finds[ticket := c]
    requires ticket in x.finds ==> x.finds[ticket].node in x.tree.nodes
    ensures RaceInv(Race(x.tree, more))
  {
    PointGone(x.tree, x.finds, more, ticket, c);
    PointCursors(x.tree, x.finds, more, ticket, c);
    RaceFrom(x.tree, more, Gone(x.tree, HeldIn(x.finds)));
  }

  lemma LiveCursor(s: Tree, gone: set<nat>, from: nat, n: nat)
    requires Inv(s, gone) && User(from) in s.refs && n in s.nodes
    ensures CursorOk(s, Cursor(from, n, s.nodes[n]))
  {
  }

  lemma BeginKeeps(x: Race, on: nat, ticket: nat)
    requires RaceInv(x) && RaceEnabled(x, Begin(on, ticket))
    ensures RaceInv(BeginAt(x, on, ticket))
  {
    var n := x.tree.refs[User(on)];
    LiveCursor(x.tree, Gone(x.tree, HeldIn(x.finds)), on, n);
    PointKeeps(x, BeginAt(x, on, ticket).finds, ticket, Cursor(on, n, x.tree.nodes[n]));
  }

  lemma DownKeeps(x: Race, ticket: nat, id: MonitorId)
    requires RaceInv(x) && ticket in x.finds && Key(x.finds[ticket].node, id) in x.tree.children
    ensures RaceInv(Descend(x, ticket, id))
  {
    var c := x.finds[ticket];
    var n := x.tree.children[Key(c.node, id)].node;
    assert x.tree.nodes[n].parent == Some(c.node) && c.node in x.tree.nodes;
    LiveCursor(x.tree, Gone(x.tree, HeldIn(x.finds)), c.from, n);
    PointKeeps(x, Descend(x, ticket, id).finds, ticket, Cursor(c.from, n, x.tree.nodes[n]));
  }

  /** Without a result: an `Arc` that was not the last, or to a node that is counted as well, is just gone. */
  lemma ForgetKeeps(x: Race, ticket: nat)
    requires RaceInv(x) && ticket in x.finds
    requires var n := x.finds[ticket].node; n in x.tree.nodes || n in HeldIn(x.finds - {ticket})
    ensures RaceInv(x.(finds := x.finds - {ticket}))
  {
    HeldWithout(x.finds, ticket);
    assert Gone(x.tree, HeldIn(x.finds - {ticket})) == Gone(x.tree, HeldIn(x.finds));
  }

  lemma ReleaseCursors(s: Tree, held: set<nat>, r: Ref, finds: map<nat, Cursor>)
    requires Droppable(s, held, r) && r.ParentField? && held == HeldIn(finds)
    requires forall k :: k in finds ==> CursorOk(s, finds[k])
    ensures forall k :: k in finds ==> CursorOk(Release(s, held, r), finds[k])
  {
    var t := Release(s, held, r);
    assert Kept(s, t, held) && forall k :: k in finds ==> User(finds[k].from) in t.refs by { ReleaseKept(s, held, r); }
    CursorsKept(s, t, held, finds);
  }

  lemma LastArcKeeps(x: Race, ticket: nat)
    requires RaceInv(x) && ticket in x.finds
    requires var n := x.finds[ticket].node; n !in x.tree.nodes && n !in HeldIn(x.finds - {ticket})
    ensures Droppable(x.tree, HeldIn(x.finds - {ticket}), ParentField(x.finds[ticket].node))
    ensures var finds := x.finds - {ticket};
      RaceInv(Race(Release(x.tree, HeldIn(finds), ParentField(x.finds[ticket].node)), finds))
  {
    var finds := x.finds - {ticket};
    LetGo(x, ticket);
    ReleaseCursors(x.tree, HeldIn(finds), ParentField(x.finds[ticket].node), finds);
  }

  lemma LevelKeeps(x: Race, ticket: nat, id: MonitorId)
    requires RaceInv(x) && ticket in x.finds
    ensures RaceInv(Descend(x, ticket, id))
  {
    var n := x.finds[ticket].node;
    if Key(n, id) in x.tree.children {
      DownKeeps(x, ticket, id);
    } else if n in x.tree.nodes || n in HeldIn(x.finds - {ticket}) {
      ForgetKeeps(x, ticket);
    } else {
      LastArcKeeps(x, ticket);
    }
  }

  // ---------------------------------------------------------------- the last step

  /** The located node still owns the entry its parent keeps under its id. */
  predicate Owns(s: Tree, c: Cursor) {
    c.record.parent.None? || (KeyOf(c.record) in s.children && s.children[KeyOf(c.record)].node == c.node)
  }

  /** It does so exactly while something counted refers to it. */
  lemma OwnsIffReferred(x: Race, ticket: nat)
    requires RaceInv(x) && ticket in x.finds
    ensures var c := x.finds[ticket];
      && (Owns(x.tree, c) <==> c.node in x.tree.nodes)
      && (Owns(x.tree, c) <==> Count(x.tree.refs, c.node) > 0)
  {
    var s, c := x.tree, x.finds[ticket];
    if c.node !in s.nodes {
      assert RefsTo(s.refs, c.node) == {};
    }
  }

  lemma FinishIsAddRef(x: Race, ticket: nat, h: nat)
    requires RaceInv(x) && ticket in x.finds && Owns(x.tree, x.finds[ticket])
    ensures HasEntry(x.tree, x.finds[ticket].node)
    ensures Finish(x, ticket, h) == Some(Race(AddRef(x.tree, User(h), x.finds[ticket].node), x.finds - {ticket}))
  {
    OwnsIffReferred(x, ticket);
    EntryExists(x.tree, Gone(x.tree, HeldIn(x.finds)), x.finds[ticket].node);
  }

  lemma CountedInv(s: Tree, held: set<nat>, n: nat, h: nat)
    requires Inv(s, Gone(s, held)) && HasEntry(s, n) && User(h) !in s.refs
    ensures var t := AddRef(s, User(h), n); Inv(t, Gone(t, held))
  {
    AddRefInv(s, Gone(s, held), User(h), n);
    assert Gone(AddRef(s, User(h), n), held) == Gone(s, held);
  }

  lemma CountedCursors(s: Tree, t: Tree, held: set<nat>, n: nat, h: nat, finds: map<nat, Cursor>)
    requires HasEntry(s, n) && t == AddRef(s, User(h), n) && ShapeOk(t) && RefsOk(t, Gone(t, held))
    requires held == HeldIn(finds) && forall k :: k in finds ==> CursorOk(s, finds[k])
    ensures forall k :: k in finds ==> CursorOk(t, finds[k])
  {
    AddRefKept(s, held, User(h), n);
    CursorsKept(s, t, held, finds);
  }

  /** A counted reference to a live node, beside calls in progress. */
  lemma CountedKeeps(x: Race, n: nat, h: nat)
    requires RaceInv(x) && HasEntry(x.tree, n) && User(h) !in x.tree.refs
    ensures RaceInv(x.(tree := AddRef(x.tree, User(h), n)))
  {
    CountedInv(x.tree, HeldIn(x.finds), n, h);
    CountedCursors(x.tree, AddRef(x.tree, User(h), n), HeldIn(x.finds), n, h, x.finds);
  }

  lemma SoundFinish(x: Race, ticket: nat, h: nat)
    requires RaceInv(x) && RaceEnabled(x, Complete(ticket, h)) && Owns(x.tree, x.finds[ticket])
    ensures Finish(x, ticket, h).Some? && RaceInv(Finish(x, ticket, h).value)
  {
    var n, rest := x.finds[ticket].node, x.(finds := x.finds - {ticket});
    assert n in x.tree.nodes by { OwnsIffReferred(x, ticket); }
    FinishIsAddRef(x, ticket, h);
    ForgetKeeps(x, ticket);
    CountedKeeps(rest, n, h);
  }

  /** The count kept under `k` is one more than there are references. */
  ghost predicate TooHigh(s: Tree, k: Key) {
    k in s.children && s.children[k].refcount == Count(s.refs, s.children[k].node) + 1
  }

  /** Another node has taken the entry: its count is one too high from here on. */
  lemma Miscount(x: Race, ticket: nat, h: nat)
    requires RaceInv(x) && RaceEnabled(x, Complete(ticket, h)) && !Owns(x.tree, x.finds[ticket])
    requires KeyOf(x.finds[ticket].record) in x.tree.children
    ensures Finish(x, ticket, h).Some?
    ensures TooHigh(Finish(x, ticket, h).value.tree, KeyOf(x.finds[ticket].record))
  {
    var c, k := x.finds[ticket], KeyOf(x.finds[ticket].record);
    CountAdd(x.tree.refs, User(h), c.node, x.tree.children[k].node);
  }

  /**
   The last step of `locate`, after anything in between: it panics exactly if the parent has no entry
   under the id, and keeps every count right exactly if the entry is still that of the node found.
   */
  lemma FinishSoundIff(x: Race, ticket: nat, h: nat)
    requires RaceInv(x) && RaceEnabled(x, Complete(ticket, h))
    ensures var c := x.finds[ticket];
      && (Finish(x, ticket, h).None? <==> c.record.parent.Some? && KeyOf(c.record) !in x.tree.children)
      && (Finish(x, ticket, h).Some? && RaceInv(Finish(x, ticket, h).value) <==> Owns(x.tree, c))
  {
    var c := x.finds[ticket];
    if Owns(x.tree, c) {
      SoundFinish(x, ticket, h);
    } else if KeyOf(c.record) in x.tree.children {
      Miscount(x, ticket, h);
    }
  }

  // ---------------------------------------------------------------- runs

  lemma RaceStart(h: nat)
    ensures RaceInv(Race(Init(h), map[]))
  {
    InitInv(h);
    assert HeldIn(map[]) == {};
  }

  /** A run up to its first panic or wrong count. */
  ghost function RaceExec(h: nat, run: seq<RaceOp>): Option<Race> {
    if run == [] then Some(Race(Init(h), map[]))
    else
      match RaceExec(h, run[..|run| - 1])
      case None => None
      case Some(x) => if RaceInv(x) then RaceStep(x, run[|run| - 1]) else Some(x)
  }

  ghost predicate Right(x: Option<Race>) {
    x.Some? && RaceInv(x.value)
  }

  /** Every call of `locate` that came to its last step found its node still owning its entry. */
  ghost predicate AllOwned(h: nat, run: seq<RaceOp>) {
    run != [] ==>
      var before, a := RaceExec(h, run[..|run| - 1]), run[|run| - 1];
      && AllOwned(h, run[..|run| - 1])
      && (before.Some? && a.Complete? && RaceEnabled(before.value, a) ==>
            Owns(before.value.tree, before.value.finds[a.ticket]))
  }

  lemma StepRight(x: Race, a: RaceOp)
    requires RaceInv(x)
    ensures Right(RaceStep(x, a)) <==> (a.Complete? && RaceEnabled(x, a) ==> Owns(x.tree, x.finds[a.ticket]))
  {
    if RaceEnabled(x, a) {
      match a
      case Atomic(op) => AtomicKeeps(x, op);
      case Begin(on, ticket) => BeginKeeps(x, on, ticket);
      case Level(ticket, id) => LevelKeeps(x, ticket, id);
      case Complete(ticket, h) => FinishSoundIff(x, ticket, h);
    }
  }

  /**
   Over every interleaving of operations and calls of `locate`: nothing panics and every count is
   right if and only if each call found, at its last step, that its node still owns its entry.
   */
  lemma {:induction false} RaceRightIff(h: nat, run: seq<RaceOp>)
    ensures Right(RaceExec(h, run)) <==> AllOwned(h, run)
  {
    if run == [] {
      RaceStart(h);
    } else {
      var before := RaceExec(h, run[..|run| - 1]);
      RaceRightIff(h, run[..|run| - 1]);
      if Right(before) { StepRight(before.value, run[|run| - 1]); }
    }
  }

  // ---------------------------------------------------------------- the two ways it fails

  lemma RaceSnoc(h: nat, run: seq<RaceOp>, a: RaceOp, x: Race)
    requires RaceExec(h, run) == Some(x) && RaceInv(x)
    ensures RaceExec(h, run + [a]) == RaceStep(x, a)
    ensures !a.Complete? ==> RaceStep(x, a).Some? && RaceInv(RaceStep(x, a).value)
  {
    assert (run + [a])[..|run|] == run;
    StepRight(x, a);
  }

  /** The only counted reference to the located node is the handle `h`. */
  ghost predicate LastHandle(x: Race, ticket: nat, h: nat) {
    && ticket in x.finds && x.finds[ticket].record.parent.Some?
    && User(h) in x.tree.refs && x.tree.refs[User(h)] == x.finds[ticket].node
    && Count(x.tree.refs, x.finds[ticket].node) == 1 && !Borrowed(x.finds, h)
  }

  lemma LastUnref(s: Tree, gone: set<nat>, h: nat, record: Node)
    requires Inv(s, gone) && User(h) in s.refs && s.nodes[s.refs[User(h)]] == record && record.parent.Some?
    requires Count(s.refs, s.refs[User(h)]) == 1
    ensures HasEntry(s, s.refs[User(h)])
    ensures var t := Unref(s, User(h));
      s.refs[User(h)] !in t.nodes && KeyOf(record) !in t.children && record.parent.value in t.nodes
  {
    var n := s.refs[User(h)];
    EntryExists(s, gone, n);
    CountRemove(s.refs, User(h), n);
  }

  /** Another thread drops that handle: the entry goes, the node lives on in the `Arc`. */
  lemma LastDrop(x: Race, ticket: nat, h: nat)
    requires RaceInv(x) && LastHandle(x, ticket, h)
    ensures RaceEnabled(x, Atomic(Drop(h)))
    ensures var c, t := x.finds[ticket], Step(x.tree, HeldIn(x.finds), Drop(h));
      && t.refs == x.tree.refs - {User(h)} && t.next == x.tree.next
      && c.node !in t.nodes && KeyOf(c.record) !in t.children && c.record.parent.value in t.nodes
  {
    var c, held := x.finds[ticket], HeldIn(x.finds);
    assert c.node in held;
    LastUnref(x.tree, Gone(x.tree, held), h, c.record);
    assert Gone(x.tree, held) + {} == Gone(x.tree, held);
    assert Step(x.tree, held, Drop(h)) == Unref(x.tree, User(h));
  }

  /** Whenever the last handle is dropped in between, the last step of `locate` panics in `unwrap`. */
  lemma LocatePanics(x: Race, ticket: nat, h: nat, result: nat)
    requires RaceInv(x) && LastHandle(x, ticket, h)
    ensures var y := RaceStep(x, Atomic(Drop(h)));
      y.Some? && RaceInv(y.value) && ticket in y.value.finds && Finish(y.value, ticket, result).None?
  {
    AtomicKeeps(x, Drop(h));
    LastDrop(x, ticket, h);
  }

  /** The child is made again under the same parent. */
  lemma Remade(s: Tree, gone: set<nat>, p: nat, id: MonitorId, h: nat)
    requires Inv(s, gone) && p in s.nodes && Key(p, id) !in s.children && User(h) !in s.refs
    ensures HasEntry(s, p) && MakeChild(s, p, id, h).children[Key(p, id)] == Child(1, s.next)
    ensures forall r :: r in MakeChild(s, p, id, h).refs ==> r in s.refs || r == User(h) || r == ParentField(s.next)
  {
    EntryExists(s, gone, p);
  }

  lemma RemadeRace(x: Race, on: nat, id: MonitorId, h: nat, result: nat) returns (y: Race)
    requires RaceInv(x) && User(on) in x.tree.refs && Key(x.tree.refs[User(on)], id) !in x.tree.children
    requires User(h) !in x.tree.refs && User(result) !in x.tree.refs && h != result
    ensures RaceStep(x, Atomic(MakeChildOf(on, id, h))) == Some(y) && RaceInv(y) && y.finds == x.finds
    ensures var k := Key(x.tree.refs[User(on)], id); k in y.tree.children && y.tree.children[k].node == x.tree.next
    ensures User(result) !in y.tree.refs
  {
    y := x.(tree := Step(x.tree, HeldIn(x.finds), MakeChildOf(on, id, h)));
    assert RaceInv(y) by { AtomicKeeps(x, MakeChildOf(on, id, h)); }
    Remade(x.tree, Gone(x.tree, HeldIn(x.finds)), x.tree.refs[User(on)], id, h);
  }

  /** Whenever the child is made again first, the count of the new node goes wrong instead. */
  lemma LocateMiscounts(x: Race, ticket: nat, on: nat, h: nat, result: nat) returns (y: Race)
    requires RaceInv(x) && ticket in x.finds && x.finds[ticket].node !in x.tree.nodes
    requires User(on) in x.tree.refs && Some(x.tree.refs[User(on)]) == x.finds[ticket].record.parent
    requires KeyOf(x.finds[ticket].record) !in x.tree.children
    requires User(h) !in x.tree.refs && User(result) !in x.tree.refs && h != result
    ensures RaceStep(x, Atomic(MakeChildOf(on, x.finds[ticket].record.id, h))) == Some(y) && RaceInv(y)
    ensures RaceEnabled(y, Complete(ticket, result)) && Finish(y, ticket, result).Some?
    ensures TooHigh(Finish(y, ticket, result).value.tree, KeyOf(x.finds[ticket].record))
  {
    var c := x.finds[ticket];
    assert c.node < x.tree.next;
    y := RemadeRace(x, on, c.record.id, h, result);
    Miscount(y, ticket, result);
  }

  // ---------------------------------------------------------------- such runs exist

  function Made(id: MonitorId): Tree {
    Tree(map[0 := Node(ROOT_ID, None), 1 := Node(id, Some(0))], map[Key(0, id) := Child(1, 1)], map[],
         map[User(0) := 0, ParentField(1) := 0, User(1) := 1], map[], 2)
  }

  lemma ChildIsMade(id: MonitorId)
    ensures RaceExec(0, [Atomic(MakeChildOf(0, id, 1))])
      == Some(Race(Made(id), map[])) && RaceInv(Race(Made(id), map[]))
  {
    var a := Atomic(MakeChildOf(0, id, 1));
    RaceStart(0);
    assert HeldIn(map[]) == {};
    RaceSnoc(0, [], a, Race(Init(0), map[]));
    assert [] + [a] == [a];
    assert MakeChild(Init(0), 0, id, 1) == Made(id);
  }

  function Looking(id: MonitorId): Race {
    Race(Made(id), map[7 := Cursor(0, 0, Node(ROOT_ID, None))])
  }

  function LookRun(id: MonitorId): seq<RaceOp> {
    [Atomic(MakeChildOf(0, id, 1))] + [Begin(0, 7)]
  }

  lemma LookStep(id: MonitorId)
    requires RaceInv(Race(Made(id), map[]))
    ensures RaceStep(Race(Made(id), map[]), Begin(0, 7)) == Some(Looking(id))
  {
    assert Made(id).refs[User(0)] == 0 && Made(id).nodes[0] == Node(ROOT_ID, None);
  }

  lemma LocateLooks(id: MonitorId)
    ensures RaceExec(0, LookRun(id)) == Some(Looking(id)) && RaceInv(Looking(id))
  {
    ChildIsMade(id);
    LookStep(id);
    RaceSnoc(0, [Atomic(MakeChildOf(0, id, 1))], Begin(0, 7), Race(Made(id), map[]));
  }

  ghost predicate RootOnly(s: Tree) {
    User(0) in s.refs && s.refs[User(0)] == 0 && User(2) !in s.refs && User(3) !in s.refs
  }

  function Located(id: MonitorId): Race {
    Race(Made(id), map[7 := Cursor(0, 1, Node(id, Some(0)))])
  }

  lemma LocatedFacts(id: MonitorId)
    ensures LastHandle(Located(id), 7, 1) && RootOnly(Made(id))
  {
    assert RefsTo(Made(id).refs, 1) == {User(1)};
    assert !Borrowed(Located(id).finds, 1);
  }

  lemma LevelStep(id: MonitorId)
    requires RaceInv(Looking(id))
    ensures RaceStep(Looking(id), Level(7, id)) == Some(Located(id))
  {
    var x := Looking(id);
    assert x.tree.children[Key(0, id)].node == 1 && x.tree.nodes[1] == Node(id, Some(0));
    assert x.finds[7 := Cursor(0, 1, Node(id, Some(0)))] == Located(id).finds;
  }

  /** A run at which the handle `1` is the last one to the node that the call `7` has found. */
  lemma LocateFinds(id: MonitorId) returns (run: seq<RaceOp>, x: Race)
    ensures RaceExec(0, run) == Some(x) && RaceInv(x) && LastHandle(x, 7, 1)
    ensures x.finds[7].record == Node(id, Some(0)) && RootOnly(x.tree)
  {
    run, x := LookRun(id) + [Level(7, id)], Located(id);
    assert RaceExec(0, run) == Some(x) && RaceInv(x) by {
      LocateLooks(id);
      LevelStep(id);
      RaceSnoc(0, LookRun(id), Level(7, id), Looking(id));
    }
    LocatedFacts(id);
  }

  lemma StillRoot(s: Tree, t: Tree, h: nat)
    requires RootOnly(s) && t.refs == s.refs - {User(h)} && h != 0
    ensures RootOnly(t)
  {
  }

  lemma DropRun(run: seq<RaceOp>, x: Race, ticket: nat, h: nat) returns (y: Race)
    requires RaceExec(0, run) == Some(x) && RaceInv(x) && LastHandle(x, ticket, h)
    ensures RaceExec(0, run + [Atomic(Drop(h))]) == Some(y) && RaceInv(y)
    ensures y.finds == x.finds && (h != 0 && RootOnly(x.tree) ==> RootOnly(y.tree))
    ensures x.finds[ticket].node !in y.tree.nodes && KeyOf(x.finds[ticket].record) !in y.tree.children
  {
    var t := Step(x.tree, HeldIn(x.finds), Drop(h));
    LastDrop(x, ticket, h);
    y := x.(tree := t);
    assert RaceExec(0, run + [Atomic(Drop(h))]) == Some(y) && RaceInv(y) by { RaceSnoc(0, run, Atomic(Drop(h)), x); }
    if h != 0 && RootOnly(x.tree) { StillRoot(x.tree, t, h); }
  }

  lemma CompleteRun(run: seq<RaceOp>, x: Race, ticket: nat, h: nat)
    requires RaceExec(0, run) == Some(x) && RaceInv(x) && RaceEnabled(x, Complete(ticket, h))
    ensures RaceExec(0, run + [Complete(ticket, h)]) == Finish(x, ticket, h)
  {
    RaceSnoc(0, run, Complete(ticket, h), x);
  }

  lemma OrphanRun(id: MonitorId) returns (run: seq<RaceOp>, y: Race)
    ensures RaceExec(0, run) == Some(y) && RaceInv(y) && RootOnly(y.tree)
    ensures 7 in y.finds && y.finds[7].record == Node(id, Some(0)) && y.finds[7].node !in y.tree.nodes
    ensures Key(0, id) !in y.tree.children
  {
    var before, x := LocateFinds(id);
    y := DropRun(before, x, 7, 1);
    run := before + [Atomic(Drop(1))];
  }

  /** Found, dropped by another thread, counted: a run in which `unwrap` fires. */
  lemma PanicRun(id: MonitorId) returns (run: seq<RaceOp>)
    ensures RaceExec(0, run) == None
  {
    var before, y := OrphanRun(id);
    CompleteRun(before, y, 7, 2);
    run := before + [Complete(7, 2)];
  }

  /** Found, dropped and made again by another thread, counted: a run in which the count goes wrong. */
  lemma MiscountRun(id: MonitorId) returns (run: seq<RaceOp>, z: Race)
    ensures RaceExec(0, run) == Some(z) && TooHigh(z.tree, Key(0, id))
  {
    var before, y := OrphanRun(id);
    run, z := RemakeAndComplete(before, y, 7, 0, 3, 2);
  }

  lemma RemakeAndComplete(before: seq<RaceOp>, x: Race, ticket: nat, on: nat, h: nat, result: nat)
    returns (run: seq<RaceOp>, z: Race)
    requires RaceExec(0, before) == Some(x) && RaceInv(x)
    requires ticket in x.finds && x.finds[ticket].node !in x.tree.nodes
    requires User(on) in x.tree.refs && Some(x.tree.refs[User(on)]) == x.finds[ticket].record.parent
    requires KeyOf(x.finds[ticket].record) !in x.tree.children
    requires User(h) !in x.tree.refs && User(result) !in x.tree.refs && h != result
    ensures RaceExec(0, run) == Some(z) && TooHigh(z.tree, KeyOf(x.finds[ticket].record))
  {
    var id := x.finds[ticket].record.id;
    var y := LocateMiscounts(x, ticket, on, h, result);
    RaceSnoc(0, before, Atomic(MakeChildOf(on, id, h)), x);
    run := before + [Atomic(MakeChildOf(on, id, h))];
    CompleteRun(run, y, ticket, result);
    run, z := run + [Complete(ticket, result)], Finish(y, ticket, result).value;
  }
}
